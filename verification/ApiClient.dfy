/**
 The browser's HTTP client with its shared refresh (web/src/lib/api.ts).

 `Tab` holds the module variables together with what is waiting on them: the API calls in
 progress, and the refresh requests on the wire. Each refresh gets a number when it is sent, so
 that a second one sent while the first is out would show.
 */
module ApiClient {
  import opened Wrappers

  type AccessToken = nat

  /** How the server answered one API request. */
  datatype Reply = Fine | Expired | OtherError

  datatype RefreshReply = NewAccess(token: AccessToken) | RefreshFailed

  /** Where a call is: first request out, awaiting the shared refresh, replay out, or finished. */
  datatype Phase = Sending | Waiting | Replaying | Returned(ok: bool)

  /**
   `direct` calls are to `refreshOnce` itself and send nothing of their own. `bearer` is the token
   the last request of the call went out with.
   */
  datatype Call = Call(
    direct: bool,
    phase: Phase,
    sent: nat,
    bearer: Option<AccessToken>,
    joined: Option<nat>,
    answer: Option<bool>)

  datatype Tab = Tab(
    accessToken: Option<AccessToken>,
    refreshInFlight: Option<nat>,
    authLost: nat,
    calls: seq<Call>,
    wire: map<nat, Option<RefreshReply>>,
    refreshes: nat)

  datatype Event =
    | NewCall
    | NewRefreshCall
    | ReplyArrives(call: nat, reply: Reply)
    | RefreshReplyArrives(refresh: nat, refreshReply: RefreshReply)
    | RefreshSettles(refresh: nat)

  const FRESH := Tab(None, None, 0, [], map[], 0)

  // ---- One event --------------------------------------------------------------------------

  /** The caller of `refreshOnce` gets the promise already there, or the one for a new request. */
  function JoinOrStart(tab: Tab): Tab {
    if tab.refreshInFlight.Some? then tab
    else tab.(refreshInFlight := Some(tab.refreshes),
              wire := tab.wire[tab.refreshes := None], refreshes := tab.refreshes + 1)
  }

  function Await(call: Call, refresh: Option<nat>): Call {
    call.(phase := Waiting, joined := refresh)
  }

  function Replied(tab: Tab, c: nat, reply: Reply): Tab
    requires c < |tab.calls|
  {
    var call := tab.calls[c];
    if call.phase == Sending && reply == Expired then
      var after := JoinOrStart(tab);
      after.(calls := tab.calls[c := Await(call, after.refreshInFlight)])
    else if call.phase == Sending || call.phase == Replaying then
      tab.(calls := tab.calls[c := call.(phase := Returned(reply == Fine))])
    else tab
  }

  /** What the settled promise makes of one call: the ones that await it replay, or give up. */
  function Wake(call: Call, refresh: nat, reply: RefreshReply): Call {
    if call.phase != Waiting || call.joined != Some(refresh) then call
    else if call.direct then call.(phase := Returned(reply.NewAccess?), answer := Some(reply.NewAccess?))
    else if reply.NewAccess? then
      call.(phase := Replaying, sent := call.sent + 1, bearer := Some(reply.token), answer := Some(true))
    else call.(phase := Returned(false), answer := Some(false))
  }

  function WakeAll(calls: seq<Call>, refresh: nat, reply: RefreshReply): (r: seq<Call>)
    ensures |r| == |calls|
    ensures forall i :: 0 <= i < |calls| ==> r[i] == Wake(calls[i], refresh, reply)
  {
    seq(|calls|, i requires 0 <= i < |calls| => Wake(calls[i], refresh, reply))
  }

  function Settled(tab: Tab, refresh: nat): Tab {
    if refresh in tab.wire && tab.wire[refresh].Some? then
      var reply := tab.wire[refresh].value;
      var done := tab.(refreshInFlight := None, wire := tab.wire - {refresh},
                       calls := WakeAll(tab.calls, refresh, reply));
      if reply.NewAccess? then done.(accessToken := Some(reply.token))
      else done.(accessToken := None, authLost := tab.authLost + 1)
    else tab
  }

  function React(tab: Tab, event: Event): Tab {
    match event
    case NewCall => tab.(calls := tab.calls + [Call(false, Sending, 1, tab.accessToken, None, None)])
    case NewRefreshCall =>
      var after := JoinOrStart(tab);
      after.(calls := tab.calls + [Await(Call(true, Waiting, 0, None, None, None), after.refreshInFlight)])
    case ReplyArrives(c, reply) => if c < |tab.calls| then Replied(tab, c, reply) else tab
    case RefreshReplyArrives(refresh, reply) =>
      if refresh in tab.wire && tab.wire[refresh].None? then tab.(wire := tab.wire[refresh := Some(reply)]) else tab
    case RefreshSettles(refresh) => Settled(tab, refresh)
  }

  function ReactAll(tab: Tab, events: seq<Event>): Tab
    decreases |events|
  {
    if events == [] then tab else ReactAll(React(tab, events[0]), events[1..])
  }

  // ---- Single flight ----------------------------------------------------------------------

  predicate CallOk(tab: Tab, call: Call) {
    && (call.phase == Sending ==> call.joined.None? && call.answer.None?)
    && (call.phase == Waiting ==> call.joined.Some? && call.joined == tab.refreshInFlight && call.answer.None?)
    && (call.joined.Some? ==> call.joined.value < tab.refreshes)
    && (call.answer.Some? ==> call.joined.Some? && call.joined != tab.refreshInFlight)
    && (call.joined.Some? && call.phase != Waiting ==> call.answer.Some?)
    && call.sent <= 2
    && (call.direct ==> call.sent == 0 && !call.phase.Sending? && !call.phase.Replaying?)
    && (!call.direct ==> call.sent >= 1)
    && (call.phase == Sending || call.phase == Waiting ==> call.sent <= 1)
  }

  ghost predicate SingleFlight(tab: Tab) {
    && tab.wire.Keys == (if tab.refreshInFlight.Some? then {tab.refreshInFlight.value} else {})
    && (tab.refreshInFlight.Some? ==> tab.refreshInFlight.value < tab.refreshes)
    && (forall c :: 0 <= c < |tab.calls| ==> CallOk(tab, tab.calls[c]))
    && (forall c, d :: 0 <= c < |tab.calls| && 0 <= d < |tab.calls| ==> SameAnswer(tab.calls[c], tab.calls[d]))
  }

  predicate SameAnswer(a: Call, b: Call) {
    a.joined == b.joined && a.answer.Some? && b.answer.Some? ==> a.answer == b.answer
  }

  lemma ReactKeepsCall(tab: Tab, event: Event, c: nat)
    requires SingleFlight(tab) && c < |React(tab, event).calls|
    ensures CallOk(React(tab, event), React(tab, event).calls[c])
  {
    if c < |tab.calls| {
      assert CallOk(tab, tab.calls[c]);
    }
  }

  /** An answer given earlier stays; one given now goes to every call that shared the refresh. */
  lemma ReactKeepsAnswers(tab: Tab, event: Event, c: nat, d: nat)
    requires SingleFlight(tab) && c < |React(tab, event).calls| && d < |React(tab, event).calls|
    ensures SameAnswer(React(tab, event).calls[c], React(tab, event).calls[d])
  {
    if c < |tab.calls| && d < |tab.calls| {
      assert SameAnswer(tab.calls[c], tab.calls[d]) && CallOk(tab, tab.calls[c]) && CallOk(tab, tab.calls[d]);
    }
  }

  lemma ReactKeepsSingleFlight(tab: Tab, event: Event)
    requires SingleFlight(tab)
    ensures SingleFlight(React(tab, event))
  {
    var after := React(tab, event);
    forall c | 0 <= c < |after.calls| ensures CallOk(after, after.calls[c]) {
      ReactKeepsCall(tab, event, c);
    }
    forall c, d | 0 <= c < |after.calls| && 0 <= d < |after.calls| ensures SameAnswer(after.calls[c], after.calls[d]) {
      ReactKeepsAnswers(tab, event, c, d);
    }
  }

  lemma {:induction false} AlwaysSingleFlight(tab: Tab, events: seq<Event>)
    requires SingleFlight(tab)
    ensures SingleFlight(ReactAll(tab, events))
    decreases |events|
  {
    if events == [] {
    } else {
      ReactKeepsSingleFlight(tab, events[0]);
      AlwaysSingleFlight(React(tab, events[0]), events[1..]);
    }
  }

  /**
   From a fresh tab, after any events: at most one refresh is on the wire, the shared promise is
   there exactly while one is, every call awaiting a refresh awaits that one, two calls that
   shared a refresh heard the same answer from it, and no call has sent its request a third time.
   */
  lemma SharedRefresh(events: seq<Event>, c: nat, d: nat)
    requires c < |ReactAll(FRESH, events).calls| && d < |ReactAll(FRESH, events).calls|
    ensures var tab := ReactAll(FRESH, events);
            && |tab.wire| <= 1
            && (tab.refreshInFlight.Some? <==> |tab.wire| == 1)
            && (tab.calls[c].phase == Waiting ==>
                  tab.refreshInFlight.Some? && tab.calls[c].joined == tab.refreshInFlight)
            && SameAnswer(tab.calls[c], tab.calls[d])
            && tab.calls[c].sent <= 2
  {
    AlwaysSingleFlight(FRESH, events);
    var tab := ReactAll(FRESH, events);
    assert CallOk(tab, tab.calls[c]) && SameAnswer(tab.calls[c], tab.calls[d]);
    assert |tab.wire| == |tab.wire.Keys|;
  }

  /**
   When the shared refresh settles the tab holds its token, or none if it failed, and nobody is left
   waiting: every call that was replays its request with the new token, or fails if there is none;
   other calls are not disturbed.
   */
  lemma SettlingAnswersEveryWaiter(tab: Tab, refresh: nat, c: nat)
    requires SingleFlight(tab) && refresh in tab.wire && tab.wire[refresh].Some? && c < |tab.calls|
    ensures var after, ok := React(tab, RefreshSettles(refresh)), tab.wire[refresh].value.NewAccess?;
            && after.refreshInFlight.None? && after.wire == map[]
            && after.accessToken == (if ok then Some(tab.wire[refresh].value.token) else None)
            && after.authLost == tab.authLost + (if ok then 0 else 1)
            && |after.calls| == |tab.calls|
            && after.calls[c].phase != Waiting
            && (tab.calls[c].phase != Waiting ==> after.calls[c] == tab.calls[c])
            && (tab.calls[c].phase == Waiting ==>
                  && after.calls[c].answer == Some(ok)
                  && after.calls[c].phase == (if tab.calls[c].direct || !ok then Returned(ok) else Replaying)
                  && (after.calls[c].phase == Replaying ==>
                        after.calls[c].bearer == after.accessToken && after.calls[c].sent == tab.calls[c].sent + 1))
  {
    assert CallOk(tab, tab.calls[c]);
    assert refresh in tab.wire.Keys;
    assert (tab.wire - {refresh}).Keys == {};
  }

  // ---- What the tab holds, and what its calls return, over a whole run ------------------------

  lemma {:induction false} ReactOneMore(tab: Tab, events: seq<Event>, event: Event)
    ensures ReactAll(tab, events + [event]) == React(ReactAll(tab, events), event)
    decreases |events|
  {
    if events == [] {
      assert [event][1..] == [];
    } else {
      assert (events + [event])[1..] == events[1..] + [event];
      ReactOneMore(React(tab, events[0]), events[1..], event);
    }
  }

  /** Event `i` is the first answer to refresh number `refresh`. */
  predicate AnsweredAt(events: seq<Event>, i: nat, refresh: nat, reply: RefreshReply)
    requires i < |events|
  {
    var before := ReactAll(FRESH, events[..i]);
    events[i] == RefreshReplyArrives(refresh, reply) && refresh in before.wire && before.wire[refresh].None?
  }

  /** Event `i` settles a refresh that was answered with `reply`. */
  predicate SettledAt(events: seq<Event>, i: nat, reply: RefreshReply)
    requires i < |events|
  {
    var before := ReactAll(FRESH, events[..i]);
    events[i].RefreshSettles? && events[i].refresh in before.wire && before.wire[events[i].refresh] == Some(reply)
  }

  /** What lies on the wire is what the network delivered for that very refresh. */
  lemma {:induction false} WireIsWhatArrived(events: seq<Event>, refresh: nat)
    requires var tab := ReactAll(FRESH, events); refresh in tab.wire && tab.wire[refresh].Some?
    ensures exists i: nat :: i < |events| && AnsweredAt(events, i, refresh, ReactAll(FRESH, events).wire[refresh].value)
    decreases |events|
  {
    if events == [] {
    } else {
      var earlier, last := events[..|events| - 1], events[|events| - 1];
      assert events == earlier + [last];
      ReactOneMore(FRESH, earlier, last);
      var before, after := ReactAll(FRESH, earlier), ReactAll(FRESH, events);
      if refresh in before.wire && before.wire[refresh] == after.wire[refresh] {
        WireIsWhatArrived(earlier, refresh);
        var i: nat :| i < |earlier| && AnsweredAt(earlier, i, refresh, after.wire[refresh].value);
        assert earlier[..i] == events[..i];
        assert AnsweredAt(events, i, refresh, after.wire[refresh].value);
      } else {
        assert AnsweredAt(events, |earlier|, refresh, after.wire[refresh].value);
      }
    }
  }

  /** Only a refresh that settles changes the token, and then to what it was answered. */
  lemma OnlySettlingChangesToken(tab: Tab, event: Event)
    ensures var token := React(tab, event).accessToken;
            if event.RefreshSettles? && event.refresh in tab.wire && tab.wire[event.refresh].Some? then
              var reply := tab.wire[event.refresh].value;
              token == if reply.NewAccess? then Some(reply.token) else None
            else token == tab.accessToken
  {
  }

  ghost predicate NoneSettledSince(events: seq<Event>, i: nat) {
    forall j, reply :: i <= j < |events| ==> !SettledAt(events, j, reply)
  }

  lemma NotSettledLast(events: seq<Event>, i: nat)
    requires i < |events| && NoneSettledSince(events, i)
    ensures var before, last := ReactAll(FRESH, events[..|events| - 1]), events[|events| - 1];
            !(last.RefreshSettles? && last.refresh in before.wire && before.wire[last.refresh].Some?)
  {
    var before, last := ReactAll(FRESH, events[..|events| - 1]), events[|events| - 1];
    if last.RefreshSettles? && last.refresh in before.wire && before.wire[last.refresh].Some? {
      assert SettledAt(events, |events| - 1, before.wire[last.refresh].value);
    }
  }

  /** The access token a tab holds is the one from the last refresh that settled, and none if that failed. */
  lemma {:induction false} TokenIsFromTheLastRefresh(events: seq<Event>, i: nat, reply: RefreshReply)
    requires i < |events| && SettledAt(events, i, reply) && NoneSettledSince(events, i + 1)
    ensures ReactAll(FRESH, events).accessToken == if reply.NewAccess? then Some(reply.token) else None
    decreases |events|
  {
    var earlier, event := events[..|events| - 1], events[|events| - 1];
    assert events == earlier + [event];
    ReactOneMore(FRESH, earlier, event);
    OnlySettlingChangesToken(ReactAll(FRESH, earlier), event);
    if i < |earlier| {
      NotSettledLast(events, i + 1);
      assert forall j :: 0 <= j < |earlier| ==> earlier[..j] == events[..j] && earlier[j] == events[j];
      assert SettledAt(earlier, i, reply);
      forall j, other | i + 1 <= j < |earlier| ensures !SettledAt(earlier, j, other) {
        assert !SettledAt(events, j, other);
      }
      TokenIsFromTheLastRefresh(earlier, i, reply);
    }
  }

  /** Until a refresh has settled there is no token. */
  lemma {:induction false} NoTokenBeforeARefresh(events: seq<Event>)
    requires NoneSettledSince(events, 0)
    ensures ReactAll(FRESH, events).accessToken.None?
    decreases |events|
  {
    if events == [] {
    } else {
      var earlier, event := events[..|events| - 1], events[|events| - 1];
      assert events == earlier + [event];
      ReactOneMore(FRESH, earlier, event);
      OnlySettlingChangesToken(ReactAll(FRESH, earlier), event);
      NotSettledLast(events, 0);
      forall j, reply | 0 <= j < |earlier| ensures !SettledAt(earlier, j, reply) {
        assert earlier[..j] == events[..j] && !SettledAt(events, j, reply);
      }
      NoTokenBeforeARefresh(earlier);
    }
  }

  /** A finished API call: it returned well only on a good reply, and badly only on a bad one. */
  lemma {:induction false} ReturnsAreReplies(events: seq<Event>, c: nat)
    requires c < |ReactAll(FRESH, events).calls|
    requires ReactAll(FRESH, events).calls[c].phase.Returned? && !ReactAll(FRESH, events).calls[c].direct
    ensures if ReactAll(FRESH, events).calls[c].phase.ok then ReplyArrives(c, Fine) in events
            else ReplyArrives(c, OtherError) in events || ReplyArrives(c, Expired) in events
    decreases |events|
  {
    if events == [] {
    } else {
      var earlier, event := events[..|events| - 1], events[|events| - 1];
      assert events == earlier + [event];
      ReactOneMore(FRESH, earlier, event);
      AlwaysSingleFlight(FRESH, earlier);
      var before := ReactAll(FRESH, earlier);
      if c < |before.calls| && before.calls[c].phase.Returned? {
        ReturnsAreReplies(earlier, c);
      } else if event.RefreshSettles? {
        WaitersWereExpired(earlier, c);
      }
    }
  }

  /** A call waits only because its request was answered that the token had expired. */
  lemma {:induction false} WaitersWereExpired(events: seq<Event>, c: nat)
    requires c < |ReactAll(FRESH, events).calls|
    requires ReactAll(FRESH, events).calls[c].phase == Waiting && !ReactAll(FRESH, events).calls[c].direct
    ensures ReplyArrives(c, Expired) in events
    decreases |events|
  {
    if events == [] {
    } else {
      var earlier, event := events[..|events| - 1], events[|events| - 1];
      assert events == earlier + [event];
      ReactOneMore(FRESH, earlier, event);
      var before := ReactAll(FRESH, earlier);
      if c < |before.calls| && before.calls[c].phase == Waiting {
        WaitersWereExpired(earlier, c);
      }
    }
  }

  /** Each reply a call is waiting for decides it at once: well, badly, or by way of the refresh. */
  lemma ReplyDecidesTheCall(tab: Tab, c: nat, reply: Reply)
    requires SingleFlight(tab) && c < |tab.calls|
    requires tab.calls[c].phase == Sending || tab.calls[c].phase == Replaying
    ensures var after := React(tab, ReplyArrives(c, reply));
            && c < |after.calls|
            && (after.calls[c].phase == Returned(true) <==> reply == Fine)
            && (after.calls[c].phase == Waiting <==> reply == Expired && tab.calls[c].phase == Sending)
            && (after.calls[c].phase == Waiting ==> after.refreshInFlight.Some?)
            && (after.calls[c].phase in {Returned(true), Returned(false), Waiting})
            && after.accessToken == tab.accessToken
  {
  }

  // ---- Every call comes to an end -----------------------------------------------------------

  function Weight(call: Call): nat {
    match call.phase
    case Sending => 5
    case Waiting => 2
    case Replaying => 1
    case Returned(_) => 0
  }

  function TotalWeight(calls: seq<Call>): nat {
    if calls == [] then 0 else Weight(calls[0]) + TotalWeight(calls[1..])
  }

  function WireWeight(tab: Tab): nat {
    if tab.refreshInFlight.None? || tab.refreshInFlight.value !in tab.wire then 0
    else if tab.wire[tab.refreshInFlight.value].None? then 2 else 1
  }

  function Work(tab: Tab): nat {
    TotalWeight(tab.calls) + WireWeight(tab)
  }

  lemma {:induction false} WeightOfUpdate(calls: seq<Call>, c: nat, call: Call)
    requires c < |calls|
    ensures TotalWeight(calls[c := call]) == TotalWeight(calls) - Weight(calls[c]) + Weight(call)
    ensures Weight(calls[c]) <= TotalWeight(calls)
    decreases |calls|
  {
    if c == 0 {
      assert calls[0 := call][1..] == calls[1..];
    } else {
      assert calls[c := call][1..] == calls[1..][c - 1 := call];
      WeightOfUpdate(calls[1..], c - 1, call);
    }
  }

  lemma {:induction false} WakingLightens(calls: seq<Call>, refresh: nat, reply: RefreshReply)
    ensures TotalWeight(WakeAll(calls, refresh, reply)) <= TotalWeight(calls)
    decreases |calls|
  {
    if calls == [] {
    } else {
      assert WakeAll(calls, refresh, reply)[1..] == WakeAll(calls[1..], refresh, reply);
      WakingLightens(calls[1..], refresh, reply);
    }
  }

  predicate Opening(event: Event) {
    event == NewCall || event == NewRefreshCall
  }

  /** Every event that is not a new call, and that does anything at all, uses up work. */
  lemma EventUsesWork(tab: Tab, event: Event)
    requires SingleFlight(tab) && !Opening(event)
    ensures React(tab, event) == tab || Work(React(tab, event)) < Work(tab)
  {
    match event {
      case ReplyArrives(c, reply) =>
        if c < |tab.calls| {
          WeightOfUpdate(tab.calls, c, React(tab, event).calls[c]);
        }
      case RefreshReplyArrives(refresh, reply) =>
      case RefreshSettles(refresh) =>
        if refresh in tab.wire && tab.wire[refresh].Some? {
          WakingLightens(tab.calls, refresh, tab.wire[refresh].value);
        }
      case _ =>
    }
  }

  ghost predicate EachCounts(tab: Tab, events: seq<Event>)
    decreases |events|
  {
    events == []
    || (!Opening(events[0]) && React(tab, events[0]) != tab && EachCounts(React(tab, events[0]), events[1..]))
  }

  /** With no new calls, only so many events can happen before every call has returned. */
  lemma {:induction false} CallsTerminate(tab: Tab, events: seq<Event>)
    requires SingleFlight(tab) && EachCounts(tab, events)
    ensures |events| <= Work(tab)
    decreases |events|
  {
    if events == [] {
    } else {
      EventUsesWork(tab, events[0]);
      ReactKeepsSingleFlight(tab, events[0]);
      CallsTerminate(React(tab, events[0]), events[1..]);
    }
  }

  /** While a call has not returned, some answer is still due that will move things on. */
  lemma NeverStuck(tab: Tab, c: nat) returns (event: Event)
    requires SingleFlight(tab) && c < |tab.calls| && !tab.calls[c].phase.Returned?
    ensures !Opening(event) && React(tab, event) != tab
  {
    assert CallOk(tab, tab.calls[c]);
    if tab.calls[c].phase != Waiting {
      event := ReplyArrives(c, OtherError);
      assert React(tab, event).calls[c] != tab.calls[c];
    } else {
      var refresh := tab.refreshInFlight.value;
      assert refresh in tab.wire.Keys;
      if tab.wire[refresh].None? {
        event := RefreshReplyArrives(refresh, RefreshFailed);
        assert React(tab, event).wire[refresh].Some?;
      } else {
        event := RefreshSettles(refresh);
        assert React(tab, event).refreshInFlight.None?;
      }
    }
  }

  // ---- The module variables themselves -----------------------------------------------------

  class Client {
    var accessToken: Option<AccessToken>
    var refreshInFlight: Option<nat>
    var authLost: nat
    var calls: seq<Call>
    var wire: map<nat, Option<RefreshReply>>
    var refreshes: nat

    ghost function View(): Tab
      reads this
    {
      Tab(accessToken, refreshInFlight, authLost, calls, wire, refreshes)
    }

    constructor ()
      ensures View() == FRESH
    {
      accessToken, refreshInFlight, authLost, calls, wire, refreshes := None, None, 0, [], map[], 0;
    }

    method RefreshOnce() returns (promise: nat)
      requires SingleFlight(View())
      modifies this
      ensures View() == JoinOrStart(old(View()))
      ensures refreshInFlight == Some(promise) && promise in wire
      ensures old(refreshInFlight).Some? ==> old(refreshInFlight) == Some(promise) && wire == old(wire)
      ensures calls == old(calls)
    {
      if refreshInFlight.Some? {
        assert refreshInFlight.value in wire.Keys;
        return refreshInFlight.value;
      }
      promise := refreshes;
      refreshes := refreshes + 1;
      wire := wire[promise := None];
      refreshInFlight := Some(promise);
    }

    /** `send`, up to the request going out. */
    method Send() returns (c: nat)
      requires SingleFlight(View())
      modifies this
      ensures View() == React(old(View()), NewCall) && SingleFlight(View())
      ensures c == old(|calls|) && calls[c].phase == Sending && refreshInFlight == old(refreshInFlight)
      ensures calls[c].bearer == accessToken == old(accessToken)
    {
      ReactKeepsSingleFlight(View(), NewCall);
      c := |calls|;
      calls := calls + [Call(false, Sending, 1, accessToken, None, None)];
    }

    /** A caller of `refreshOnce` itself, as on page load. */
    method Recover() returns (c: nat)
      requires SingleFlight(View())
      modifies this
      ensures View() == React(old(View()), NewRefreshCall) && SingleFlight(View())
      ensures c == old(|calls|) && calls[c].phase == Waiting && calls[c].joined == refreshInFlight
    {
      ReactKeepsSingleFlight(View(), NewRefreshCall);
      var promise := RefreshOnce();
      c := |calls|;
      calls := calls + [Call(true, Waiting, 0, None, Some(promise), None)];
    }

    method OnReply(c: nat, reply: Reply)
      requires SingleFlight(View()) && c < |calls|
      modifies this
      ensures View() == React(old(View()), ReplyArrives(c, reply)) && SingleFlight(View())
      ensures var phase := old(calls)[c].phase;
              && |calls| == old(|calls|)
              && (phase == Sending && reply == Expired ==> calls[c].phase == Waiting)
              && ((phase == Sending && reply != Expired) || phase == Replaying ==>
                    calls[c].phase == Returned(reply == Fine))
      ensures forall d :: 0 <= d < old(|calls|) && d != c ==> calls[d] == old(calls)[d]
      ensures accessToken == old(accessToken)
    {
      ReactKeepsSingleFlight(View(), ReplyArrives(c, reply));
      var call := calls[c];
      if call.phase == Sending && reply == Expired {
        var promise := RefreshOnce();
        calls := calls[c := call.(phase := Waiting, joined := Some(promise))];
      } else if call.phase == Sending || call.phase == Replaying {
        calls := calls[c := call.(phase := Returned(reply == Fine))];
      }
    }

    /** The rest of the shared promise once its response is in, through the `finally`. */
    method OnRefreshSettled(refresh: nat)
      requires SingleFlight(View()) && refresh in wire && wire[refresh].Some?
      modifies this
      ensures View() == React(old(View()), RefreshSettles(refresh)) && SingleFlight(View())
      ensures refreshInFlight.None? && wire == map[]
      ensures accessToken == match old(wire)[refresh].value
                             case NewAccess(token) => Some(token)
                             case RefreshFailed => None
      ensures authLost == old(authLost) + (if old(wire)[refresh].value.NewAccess? then 0 else 1)
    {
      ReactKeepsSingleFlight(View(), RefreshSettles(refresh));
      var reply := wire[refresh].value;
      match reply {
        case NewAccess(token) => accessToken := Some(token);
        case RefreshFailed =>
          accessToken := None;
          authLost := authLost + 1;
      }
      refreshInFlight := None;
      wire := wire - {refresh};
      calls := WakeAll(calls, refresh, reply);
    }
  }
}
