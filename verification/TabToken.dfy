/**
 The two things a tab keeps from a refresh, its cookie and its access token, and what they are for.
 */
module TabToken {
  import opened Wrappers
  import opened Sessions
  import opened Chains
  import opened Tokens
  import opened Handlers
  import opened Runs
  import opened SingleTab
  import Tab = ApiClient

  // ---- One answer -----------------------------------------------------------------------------

  /**
   A delivered refresh: a rotation fills the jar with its cookie and gives the tab an access token for
   the session it names; SESSION_INVALID from the checks and SESSION_REVOKED empty the jar; the
   rotation's own SESSION_INVALID, a refusal and a failed query leave the jar. All but the first tell
   the tab that it failed.
   */
  lemma DeliveredAnswer(w: World, refresh: nat)
    requires Delivering(w, refresh)
    ensures var answer, w' := w.server.procs[w.pids[refresh]].answer, NextWorld(w, Deliver(refresh));
            && refresh in w'.tab.wire && w'.tab.wire[refresh].Some?
            && w'.server == w.server && w'.tab.accessToken == w.tab.accessToken
            && (w'.tab.wire[refresh].value.NewAccess? <==> answer.Refreshed?)
            && (answer.Refreshed? ==>
                  && w'.jar == Some(answer.cookie)
                  && w'.tab.wire[refresh].value == Tab.NewAccess(answer.access.sid))
            && (answer.SessionCleared? || answer.FamilyBurned? ==> w'.jar.None?)
            && (answer in {SessionLost, Refused, ServerError} ==> w'.jar == w.jar)
  {
  }

  /** The answer to a logout, a logout-all or the close of this very session empties the jar; no other does. */
  lemma HeardAnswer(w: World, pid: Pid)
    requires pid in w.asked && pid in w.server.procs && w.server.procs[pid].Done?
    ensures var answer, w' := w.server.procs[pid].answer, NextWorld(w, Hear(pid));
            && (answer == LoggedOut || answer == LoggedOutEverywhere || answer == SessionClosed(true) ==>
                  w'.jar.None? && w'.closed)
            && (answer in {SessionClosed(false), PasswordSet, NotFound, Served, Refused, ServerError} ==>
                  w'.jar == w.jar && w'.closed == w.closed)
            && (answer.Unauthorized? ==> w'.jar == w.jar && w'.closed == w.closed)
            && w'.tab == w.tab && w'.server == w.server
  {
  }

  /** A refresh and a logout both go out with the cookie of the moment. */
  lemma SentWithTheCookie(w: World, event: Tab.Event, pid: Pid)
    requires pid !in w.server.procs
    ensures NextWorld(w, TabLogsOut(pid)).server.procs[pid] == LogoutArrived(w.jar)
    ensures !event.RefreshReplyArrives? && Tab.React(w.tab, event).refreshes != w.tab.refreshes ==>
              NextWorld(w, TabActs(event, pid)).server.procs[pid] == RefreshArrived(w.jar)
  {
  }

  // ---- Every run ------------------------------------------------------------------------------

  predicate Names(token: Option<Tab.AccessToken>, tail: SessionId) {
    token.Some? ==> token.value == tail
  }

  /** The refresh has rotated the session, so what it will answer is newer than what the tab holds. */
  predicate Ahead(p: Proc) {
    p.RefreshCommitted? || (p.Done? && p.answer.Refreshed?)
  }

  /** The newest session is the one of the tab's token, or of the one on its way to the tab. */
  ghost predicate TokenCurrent(w: World, tail: SessionId) {
    if w.tab.refreshInFlight.None? then Names(w.tab.accessToken, tail)
    else
      var refresh := w.tab.refreshInFlight.value;
      if refresh in w.tab.wire && w.tab.wire[refresh].Some? then
        w.tab.wire[refresh].value.NewAccess? ==> w.tab.wire[refresh].value.token == tail
      else
        refresh in w.pids && w.pids[refresh] in w.server.procs && !Ahead(w.server.procs[w.pids[refresh]]) ==>
          Names(w.tab.accessToken, tail)
  }

  /** Sending a refresh changes neither what the tab holds nor what is newest. */
  lemma SendingKeepsToken(w: World, step: WorldStep, f: FamilyId, tail: SessionId)
    requires WorldInv(w, f, tail) && TokenCurrent(w, tail) && step.TabActs?
    requires NextWorld(w, step) != w && NextWorld(w, step).tab.refreshes != w.tab.refreshes
    ensures TokenCurrent(NextWorld(w, step), tail)
  {
    var w' := NextWorld(w, step);
    Tab.OnlySettlingChangesToken(w.tab, step.event);
    TabSends(w, step);
    assert w.tab.refreshInFlight.None?;
    assert w'.pids[w.tab.refreshes] == step.pid && w'.server.procs[step.pid] == RefreshArrived(w.jar);
  }

  /** Without a send the tab keeps its refresh and its token, or settles the one and takes up the other. */
  lemma QuietTabKeepsToken(tab: Tab.Tab, event: Tab.Event)
    requires Tab.SingleFlight(tab) && !event.RefreshReplyArrives? && Tab.React(tab, event).refreshes == tab.refreshes
    ensures var after := Tab.React(tab, event);
            || (after.refreshInFlight == tab.refreshInFlight && after.wire == tab.wire
                && after.accessToken == tab.accessToken)
            || (&& tab.refreshInFlight.Some? && tab.refreshInFlight.value in tab.wire
                && tab.wire[tab.refreshInFlight.value].Some? && after.refreshInFlight.None?
                && after.accessToken == match tab.wire[tab.refreshInFlight.value].value
                                        case NewAccess(token) => Some(token)
                                        case RefreshFailed => None)
  {
    if event.RefreshSettles? && event.refresh in tab.wire {
      assert event.refresh in tab.wire.Keys;
    }
  }

  lemma TabActsKeepsToken(w: World, step: WorldStep, f: FamilyId, tail: SessionId)
    requires WorldInv(w, f, tail) && TokenCurrent(w, tail) && step.TabActs?
    ensures TokenCurrent(NextWorld(w, step), tail)
  {
    var w' := NextWorld(w, step);
    if w' != w && w'.tab.refreshes != w.tab.refreshes {
      SendingKeepsToken(w, step, f, tail);
    } else if w' != w {
      QuietTabKeepsToken(w.tab, step.event);
      assert w' == w.(tab := w'.tab);
    }
  }

  lemma DeliverKeepsToken(w: World, step: WorldStep, f: FamilyId, tail: SessionId)
    requires WorldInv(w, f, tail) && TokenCurrent(w, tail) && step.Deliver?
    ensures TokenCurrent(NextWorld(w, step), tail)
  {
    if Delivering(w, step.refresh) {
      DeliveredAnswer(w, step.refresh);
      assert step.refresh in w.tab.wire.Keys;
    }
  }

  lemma ServerKeepsToken(w: World, step: WorldStep, f: FamilyId, tail: SessionId, tail': SessionId)
    requires WorldInv(w, f, tail) && TokenCurrent(w, tail) && step.ServerActs?
    requires tail' == tail || Commits(w, step)
    ensures TokenCurrent(NextWorld(w, step), tail')
  {
    var w' := NextWorld(w, step);
    if Undelivered(w) {
      var pid := w.pids[w.tab.refreshInFlight.value];
      assert IsFlight(w, pid);
      if step.step.Run? && step.step.pid == pid && Ahead(w.server.procs[pid]) {
        OnlyForward(w.server, pid, step.step.choice);
      } else if !(step.step.Run? && step.step.pid == pid) {
        OthersKeepProc(w.server, step.step, pid);
      }
    }
  }

  /** A refresh that is ahead stays ahead. */
  lemma OnlyForward(s: State, pid: Pid, c: Choice)
    requires pid in s.procs && Ahead(s.procs[pid])
    ensures Ahead(Next(s, Run(pid, c)).procs[pid])
  {
  }

  lemma StepKeepsToken(w: World, step: WorldStep, f: FamilyId, tail: SessionId) returns (tail': SessionId)
    requires WorldInv(w, f, tail) && TokenCurrent(w, tail) && Allowed(w, step, f)
    ensures WorldInv(NextWorld(w, step), f, tail') && TokenCurrent(NextWorld(w, step), tail')
  {
    tail' := StepKeepsWorld(w, step, f, tail);
    TokenFollows(w, step, f, tail, tail');
  }

  lemma TokenFollows(w: World, step: WorldStep, f: FamilyId, tail: SessionId, tail': SessionId)
    requires WorldInv(w, f, tail) && TokenCurrent(w, tail)
    requires tail' == tail || Commits(w, step)
    ensures TokenCurrent(NextWorld(w, step), tail')
  {
    if step.TabActs? {
      TabActsKeepsToken(w, step, f, tail);
    } else if step.Deliver? {
      DeliverKeepsToken(w, step, f, tail);
    } else if step.ServerActs? {
      ServerKeepsToken(w, step, f, tail, tail');
    } else {
      assert w.tab.refreshInFlight.Some? ==> w.tab.refreshInFlight.value in w.tab.wire.Keys;
      RequestsKeepToken(w, step, tail);
    }
  }

  lemma RequestsKeepToken(w: World, step: WorldStep, tail: SessionId)
    requires TokenCurrent(w, tail) && InFlightHandled(w) && (step.TabLogsOut? || step.TabAsks? || step.Hear?)
    ensures TokenCurrent(NextWorld(w, step), tail)
  {
  }

  /** The refresh in flight has a process, which no new request can take. */
  ghost predicate InFlightHandled(w: World) {
    && (w.tab.refreshInFlight.Some? ==> w.tab.refreshInFlight.value in w.tab.wire)
    && (Undelivered(w) ==>
          w.tab.refreshInFlight.value in w.pids && w.pids[w.tab.refreshInFlight.value] in w.server.procs)
  }

  lemma {:induction false} TokenRun(w: World, steps: seq<WorldStep>, f: FamilyId, tail: SessionId)
    returns (tail': SessionId)
    requires WorldInv(w, f, tail) && TokenCurrent(w, tail) && AllAllowed(w, steps, f)
    ensures WorldInv(ExecWorld(w, steps), f, tail') && TokenCurrent(ExecWorld(w, steps), tail')
    decreases |steps|
  {
    tail' := tail;
    if steps == [] {
    } else {
      tail' := TokenRun(w, steps[..|steps| - 1], f, tail);
      tail' := StepKeepsToken(ExecWorld(w, steps[..|steps| - 1]), steps[|steps| - 1], f, tail');
    }
  }

  lemma WhatTheTabHas(w: World, f: FamilyId, tail: SessionId)
    requires WorldInv(w, f, tail) && TokenCurrent(w, tail)
    ensures w.tab.refreshInFlight.None? ==> w.tab.accessToken in {None, Some(tail)}
    ensures forall refresh :: refresh in w.tab.wire && w.tab.wire[refresh].Some? ==>
              w.tab.wire[refresh].value in {Tab.RefreshFailed, Tab.NewAccess(tail)}
  {
    forall refresh | refresh in w.tab.wire && w.tab.wire[refresh].Some?
      ensures w.tab.wire[refresh].value in {Tab.RefreshFailed, Tab.NewAccess(tail)}
    {
      assert refresh in w.tab.wire.Keys;
      assert w.tab.refreshInFlight == Some(refresh);
      var reply := w.tab.wire[refresh].value;
      assert reply.NewAccess? ==> reply == Tab.NewAccess(tail);
      assert reply == Tab.RefreshFailed || reply == Tab.NewAccess(tail);
    }
  }

  /**
   After any run, whenever no refresh is out, the access token the tab holds is for the newest
   session of its family, the one row without a successor; and so is a token that has been delivered
   but not yet taken up.
   */
  lemma TokenIsForTheNewestSession(s: State, user: UserId, id: SessionId, f: FamilyId, token: Token,
                                   steps: seq<WorldStep>)
    returns (tail: SessionId)
    requires Inv(s) && id !in s.sessions && id in Next(s, SignIn(user, id, f, token)).sessions
    requires AllAllowed(SignedIn(s, user, id, f, token), steps, f)
    ensures var w := ExecWorld(SignedIn(s, user, id, f, token), steps);
            && IsTail(w.server.sessions, f, tail)
            && (w.tab.refreshInFlight.None? ==> w.tab.accessToken in {None, Some(tail)})
            && (forall refresh :: refresh in w.tab.wire && w.tab.wire[refresh].Some? ==>
                  w.tab.wire[refresh].value in {Tab.RefreshFailed, Tab.NewAccess(tail)})
  {
    SignedInInv(s, user, id, f, token);
    tail := TokenRun(SignedIn(s, user, id, f, token), steps, f, id);
    WhatTheTabHas(ExecWorld(SignedIn(s, user, id, f, token), steps), f, tail);
  }
}
