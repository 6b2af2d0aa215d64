/** What the page script promises, stated over the transitions of PageState:
    the session state machine, the gate on mutations, the status line and its
    timers, the roster rebuild, and the interleavings the handlers allow. */
module PageProperties {
  import opened Optional
  import opened Roster
  import opened PageState

  // ---- Session: restore on load -------------------------------------------------------

  /** Page load issues the identity check exactly when a non-empty token is stored,
      always starts the roster fetch, and starts unauthenticated. */
  lemma InitialRequests(stored: Option<string>)
    ensures var s := Initial(stored);
            && !s.session.isAuthenticated
            && s.session.authToken == stored && s.stored == stored
            && s.net.requests[|s.net.requests| - 1] == ListActivities
            && (IdentityCheck(stored) in s.net.requests <==> Truthy(stored))
            && (s.net.inFlight.Count(Restoring) > 0 <==> Truthy(stored))
            && (!Truthy(stored) ==> s.net.requests == [ListActivities] && !s.view.teacherView)
  {
  }

  /** The identity check's answer decides the session: only a 2xx answer with a parsed
      body authenticates (and keeps the token); a rejection, a network error or a body
      that is not JSON forgets the token in memory and in storage. Nothing else changes. */
  lemma RestoreOutcome(s: State, o: Outcome<string>)
    requires s.net.inFlight.Count(Restoring) > 0
    ensures var t := RestoreCompleted(s, o);
            && (t.session.isAuthenticated <==> o.Ok?)
            && (t.view.teacherView <==> o.Ok?)
            && (o.Ok? ==> t.session.authToken == s.session.authToken && t.stored == s.stored && t.view.teacherName == o.payload)
            && (!o.Ok? ==> t.session.authToken == None && t.stored == None && t.view.teacherName == s.view.teacherName)
            && t.net.requests == s.net.requests && t.roster.list == s.roster.list && t.status.message == s.status.message
            && t.net.inFlight == s.net.inFlight.Remove(Restoring)
  {
  }

  /** After a failed restore the storage holds no token, so the next page load
      behaves exactly as one that never had a token. */
  lemma RejectedRestoreThenReload(token: string, o: Outcome<string>)
    requires token != "" && !o.Ok?
    ensures Initial(RestoreCompleted(Initial(Some(token)), o).stored) == Initial(None)
  {
  }

  // ---- Session: login and logout ------------------------------------------------------

  /** A successful login stores the access token in memory and in storage and
      authenticates; any failure leaves the session alone and explains itself in the
      login form: the server's detail, "Login failed", or the retry text. */
  lemma LoginOutcome(s: State, o: Outcome<Grant>)
    requires s.net.inFlight.Count(LoggingIn) > 0
    ensures var t := LoginCompleted(s, o);
            && (o.Ok? ==> && t.session.authToken == Some(o.payload.accessToken)
                          && t.stored == Some(o.payload.accessToken)
                          && t.session.isAuthenticated && t.view.teacherView
                          && t.view.teacherName == o.payload.teacherName
                          && !t.loginMessage.visible)
            && (!o.Ok? ==> && t.session.authToken == s.session.authToken && t.stored == s.stored
                           && t.session.isAuthenticated == s.session.isAuthenticated
                           && t.view.teacherView == s.view.teacherView
                           && t.loginMessage.visible && t.loginMessage.kind == Error)
            && (o.Rejected? && Truthy(o.detail) ==> t.loginMessage.text == o.detail.value)
            && (o.Rejected? && !Truthy(o.detail) ==> t.loginMessage.text == LoginRejected)
            && (o.NetworkError? || o.MalformedBody? ==> t.loginMessage.text == LoginFailed)
            && t.net.requests == s.net.requests && t.status.message == s.status.message && t.roster.list == s.roster.list
  {
  }

  /** Logout forgets the token everywhere and signs out, issues no request, and
      leaves the rendered roster (with any delete buttons) as it was. */
  lemma LogoutClears(s: State)
    ensures var t := LoggedOut(s);
            && t.session.authToken == None && t.stored == None
            && !t.session.isAuthenticated && !t.view.teacherView
            && t.net.requests == s.net.requests && t.net.inFlight == s.net.inFlight
            && t.roster.list == s.roster.list && t.roster.options == s.roster.options && t.status.message == s.status.message
  {
  }

  /** A delete button rendered while signed in survives logout; clicking it then
      issues nothing and shows the fixed refusal. */
  lemma StaleDeleteButton(s: State, c: nat, p: nat)
    requires HasDeleteButton(s, c, p)
    ensures var t := LoggedOut(s);
            var card := s.roster.list.cards[c];
            var u := UnregisterClicked(t, card.name, card.participants.items[p].email);
            && HasDeleteButton(t, c, p)
            && u.net.requests == t.net.requests && u.net.inFlight == t.net.inFlight && u.status.timers == t.status.timers
            && u.status.message == Message(UnregisterNeedsLogin, Error, true)
  {
  }

  // ---- Gated mutations ------------------------------------------------------------------

  /** Signed out, neither mutation issues a request (so no refetch can follow) or
      schedules a timer; each shows its fixed refusal. */
  lemma SignedOutMutationsRefused(s: State, activity: string, email: string)
    requires !s.session.isAuthenticated
    ensures var t := SignupSubmitted(s, activity, email);
            && t.net.requests == s.net.requests && t.net.inFlight == s.net.inFlight && t.status.timers == s.status.timers
            && t.status.message == Message(SignupNeedsLogin, Error, true)
            && t.roster.list == s.roster.list && t.session.authToken == s.session.authToken
    ensures var t := UnregisterClicked(s, activity, email);
            && t.net.requests == s.net.requests && t.net.inFlight == s.net.inFlight && t.status.timers == s.status.timers
            && t.status.message == Message(UnregisterNeedsLogin, Error, true)
            && t.roster.list == s.roster.list && t.session.authToken == s.session.authToken
  {
  }

  /** Signed in, each mutation issues exactly its request, carrying the current token,
      and changes nothing else until the answer comes. */
  lemma SignedInMutationsIssued(s: State, activity: string, email: string)
    requires s.session.isAuthenticated
    ensures var t := SignupSubmitted(s, activity, email);
            && t.net.requests == s.net.requests + [SignupRequest(activity, email, s.session.authToken)]
            && t.net.inFlight == s.net.inFlight.Add(SigningUp)
            && t.status.message == s.status.message && t.status.timers == s.status.timers
    ensures var t := UnregisterClicked(s, activity, email);
            && t.net.requests == s.net.requests + [UnregisterRequest(activity, email, s.session.authToken)]
            && t.net.inFlight == s.net.inFlight.Add(Unregistering)
            && t.status.message == s.status.message && t.status.timers == s.status.timers
  {
  }

  /** The three ways an authorised signup ends. A 2xx answer shows the server's message
      as a success, resets the form, starts exactly one refetch and one hide timer. Any
      other status shows the server's detail (or "An error occurred") with one timer and
      no refetch. A network error or a body that is not JSON shows the fixed failure text,
      with neither refetch nor timer. The session and the rendered roster do not change. */
  lemma SignupOutcome(s: State, o: Outcome<string>)
    requires s.net.inFlight.Count(SigningUp) > 0
    ensures var t := SignupCompleted(s, o);
            && t.status.message.visible
            && (o.Ok? ==> && t.status.message == Message(o.payload, Success, true)
                          && t.net.requests == s.net.requests + [ListActivities]
                          && t.net.inFlight.Count(Fetching) == s.net.inFlight.Count(Fetching) + 1
                          && t.status.timers == s.status.timers + 1
                          && t.signupResets == s.signupResets + 1)
            && (o.Rejected? ==> && t.status.message == Message(DetailOr(o.detail, GenericError), Error, true)
                                && t.net.requests == s.net.requests
                                && t.net.inFlight.Count(Fetching) == s.net.inFlight.Count(Fetching)
                                && t.status.timers == s.status.timers + 1)
            && (o.NetworkError? || o.MalformedBody? ==>
                                && t.status.message == Message(SignupFailed, Error, true)
                                && t.net.requests == s.net.requests
                                && t.net.inFlight.Count(Fetching) == s.net.inFlight.Count(Fetching)
                                && t.status.timers == s.status.timers)
            && (!o.Ok? ==> t.signupResets == s.signupResets)
            && t.roster.list == s.roster.list && t.session.isAuthenticated == s.session.isAuthenticated && t.session.authToken == s.session.authToken
  {
  }

  /** The same three endings for an authorised withdrawal, with its own failure text and
      no form reset. A rejected withdrawal (say, of an email not enrolled) leaves the
      roster as it was, since no refetch follows. */
  lemma UnregisterOutcome(s: State, o: Outcome<string>)
    requires s.net.inFlight.Count(Unregistering) > 0
    ensures var t := UnregisterCompleted(s, o);
            && t.status.message.visible
            && (o.Ok? ==> && t.status.message == Message(o.payload, Success, true)
                          && t.net.requests == s.net.requests + [ListActivities]
                          && t.net.inFlight.Count(Fetching) == s.net.inFlight.Count(Fetching) + 1
                          && t.status.timers == s.status.timers + 1)
            && (o.Rejected? ==> && t.status.message == Message(DetailOr(o.detail, GenericError), Error, true)
                                && t.net.requests == s.net.requests
                                && t.net.inFlight.Count(Fetching) == s.net.inFlight.Count(Fetching)
                                && t.status.timers == s.status.timers + 1)
            && (o.NetworkError? || o.MalformedBody? ==>
                                && t.status.message == Message(UnregisterFailed, Error, true)
                                && t.net.requests == s.net.requests
                                && t.net.inFlight.Count(Fetching) == s.net.inFlight.Count(Fetching)
                                && t.status.timers == s.status.timers)
            && t.signupResets == s.signupResets
            && t.roster.list == s.roster.list && t.session.isAuthenticated == s.session.isAuthenticated && t.session.authToken == s.session.authToken
  {
  }

  // ---- The status line and its timers --------------------------------------------------

  /** A hide timer is not tied to the message that scheduled it: when a timer left
      over from an earlier message fires after a successful signup replaced that
      message, it hides the new message although the new message's own timer is
      still pending. */
  lemma StaleTimerHidesNewerMessage(s: State, text: string)
    requires s.net.inFlight.Count(SigningUp) > 0 && s.status.timers > 0
    ensures var t := SignupCompleted(s, Ok(text));
            var u := TimerFired(t);
            && t.status.message == Message(text, Success, true)
            && u.status.message == Message(text, Success, false)
            && u.status.timers == s.status.timers
            && u.status.timers > 0
  {
  }

  /** The refusal shown when signed out schedules no timer of its own, yet a timer
      still pending from an earlier mutation hides it. */
  lemma RefusalHiddenByEarlierTimer(s: State, activity: string, email: string)
    requires !s.session.isAuthenticated && s.status.timers > 0
    ensures var u := TimerFired(SignupSubmitted(s, activity, email));
            && u.status.message == Message(SignupNeedsLogin, Error, false)
            && u.status.timers == s.status.timers - 1
  {
  }

  // ---- The roster rebuild ---------------------------------------------------------------

  /** A readable snapshot rebuilds the list from scratch, one card per entry in entry
      order, with delete buttons exactly when signed in at render time, and appends
      one option per entry; the response status plays no part. */
  lemma FetchRebuilds(s: State, ok: bool, es: seq<Entry>)
    requires s.net.inFlight.Count(Fetching) > 0 && WellFormed(es)
    ensures var t := FetchCompleted(s, Received(ok, es));
            && t == FetchCompleted(s, Received(!ok, es))
            && t.roster.list == Cards(RenderCards(es, s.session.isAuthenticated))
            && t.roster.options == s.roster.options + Names(es)
            && |t.roster.list.cards| == |es|
            && t.net.requests == s.net.requests && t.status.message == s.status.message
  {
    CardsFollowEntries(es, s.session.isAuthenticated);
    assert es[..|es|] == es;
  }

  /** An entry that throws while rendering replaces the list with the failure notice,
      but the options appended before it stay; an unreadable answer appends none. */
  lemma FetchFails(s: State, r: ActivitiesReply)
    requires s.net.inFlight.Count(Fetching) > 0
    requires r.Unreadable? || !WellFormed(r.entries)
    ensures var t := FetchCompleted(s, r);
            && t.roster.list == LoadFailed
            && (r.Unreadable? ==> t.roster.options == s.roster.options)
            && (r.Received? ==>
                  var k := FirstMalformed(r.entries);
                  k < |r.entries| && r.entries[k].details.None? &&
                  t.roster.options == s.roster.options + Names(r.entries[..k]))
  {
    if r.Received? {
      assert r.entries[..|r.entries|] == r.entries;
    }
  }

  /** The activity select is never cleared: every event keeps the options it had as
      a prefix, whether it touches the select or not. */
  lemma OptionsOnlyGrow(s: State, o: Outcome<string>, g: Outcome<Grant>, r: ActivitiesReply,
                        username: string, password: string, activity: string, email: string)
    ensures s.roster.options <= CheckAuthStarted(s).roster.options
    ensures s.net.inFlight.Count(Restoring) > 0 ==> s.roster.options <= RestoreCompleted(s, o).roster.options
    ensures s.roster.options <= LoginSubmitted(s, username, password).roster.options
    ensures s.net.inFlight.Count(LoggingIn) > 0 ==> s.roster.options <= LoginCompleted(s, g).roster.options
    ensures s.roster.options <= LoggedOut(s).roster.options
    ensures s.roster.options <= FetchStarted(s).roster.options
    ensures s.net.inFlight.Count(Fetching) > 0 ==> s.roster.options <= FetchCompleted(s, r).roster.options
    ensures s.roster.options <= SignupSubmitted(s, activity, email).roster.options
    ensures s.net.inFlight.Count(SigningUp) > 0 ==> s.roster.options <= SignupCompleted(s, o).roster.options
    ensures s.roster.options <= UnregisterClicked(s, activity, email).roster.options
    ensures s.net.inFlight.Count(Unregistering) > 0 ==> s.roster.options <= UnregisterCompleted(s, o).roster.options
    ensures s.status.timers > 0 ==> s.roster.options <= TimerFired(s).roster.options
  {
  }

  /** Only three events touch the session, the token in memory and in storage: a
      completed login, a completed identity check and logout. Every other event
      keeps both, whatever its outcome. */
  lemma SessionOnlyBySessionEvents(s: State, o: Outcome<string>, r: ActivitiesReply,
                                   username: string, password: string, activity: string, email: string)
    ensures Truthy(s.session.authToken) ==>
              CheckAuthStarted(s).session == s.session && CheckAuthStarted(s).stored == s.stored
    ensures var t := LoginSubmitted(s, username, password); t.session == s.session && t.stored == s.stored
    ensures var t := FetchStarted(s); t.session == s.session && t.stored == s.stored
    ensures s.net.inFlight.Count(Fetching) > 0 ==>
              var t := FetchCompleted(s, r); t.session == s.session && t.stored == s.stored
    ensures var t := SignupSubmitted(s, activity, email); t.session == s.session && t.stored == s.stored
    ensures s.net.inFlight.Count(SigningUp) > 0 ==>
              var t := SignupCompleted(s, o); t.session == s.session && t.stored == s.stored
    ensures var t := UnregisterClicked(s, activity, email); t.session == s.session && t.stored == s.stored
    ensures s.net.inFlight.Count(Unregistering) > 0 ==>
              var t := UnregisterCompleted(s, o); t.session == s.session && t.stored == s.stored
    ensures s.status.timers > 0 ==>
              var t := TimerFired(s); t.session == s.session && t.stored == s.stored
  {
  }

  /** Two fetches in flight: whichever answer is applied last decides the list,
      whatever order the fetches were issued in. */
  lemma LastFetchWins(s: State, first: ActivitiesReply, last: ActivitiesReply)
    requires s.net.inFlight.Count(Fetching) >= 2
    ensures FetchCompleted(FetchCompleted(s, first), last).roster.list == FetchCompleted(s, last).roster.list
  {
  }

  /** k completed fetches of the same collection. */
  ghost function FetchesCompleted(s: State, r: ActivitiesReply, k: nat): State
    requires s.net.inFlight.Count(Fetching) >= k
    decreases k
  {
    if k == 0 then s
    else
      var t := FetchCompleted(s, r);
      FetchesCompleted(t, r, k - 1)
  }

  /** After k completed fetches of the same readable collection the select holds k
      more copies of its names, and the list holds that collection's cards once. */
  lemma {:induction false} RepeatedFetches(s: State, ok: bool, es: seq<Entry>, k: nat)
    requires s.net.inFlight.Count(Fetching) >= k && WellFormed(es)
    decreases k
    ensures var t := FetchesCompleted(s, Received(ok, es), k);
            && t.roster.options == s.roster.options + Repeat(Names(es), k)
            && (k > 0 ==> t.roster.list == Cards(RenderCards(es, s.session.isAuthenticated)))
            && t.session.isAuthenticated == s.session.isAuthenticated
  {
    if k > 0 {
      var t := FetchCompleted(s, Received(ok, es));
      FetchRebuilds(s, ok, es);
      RepeatedFetches(t, ok, es, k - 1);
      var names := Names(es);
      assert s.roster.options + names + Repeat(names, k - 1) == s.roster.options + Repeat(names, k) by {
        RepeatPrepend(names, k);
      }
    }
  }

  lemma {:induction false} RepeatPrepend<T>(xs: seq<T>, k: nat)
    requires k > 0
    ensures xs + Repeat(xs, k - 1) == Repeat(xs, k)
  {
    if k > 1 {
      RepeatPrepend(xs, k - 1);
      assert xs + Repeat(xs, k - 1) == xs + Repeat(xs, k - 2) + xs;
    }
  }

  /** After k completed fetches of one collection with distinct names, every name sits
      in the select k more times than before, while exactly one card carries it. */
  lemma SelectAccumulates(s: State, ok: bool, es: seq<Entry>, k: nat, i: nat)
    requires s.net.inFlight.Count(Fetching) >= k && k > 0
    requires WellFormed(es) && DistinctNames(es) && i < |es|
    ensures var t := FetchesCompleted(s, Received(ok, es), k);
            && multiset(t.roster.options)[es[i].name] == multiset(s.roster.options)[es[i].name] + k
            && t.roster.list.Cards?
            && |t.roster.list.cards| == |es|
            && t.roster.list.cards[i].name == es[i].name
            && forall j :: 0 <= j < |t.roster.list.cards| && j != i ==> t.roster.list.cards[j].name != es[i].name
  {
    RepeatedFetches(s, ok, es, k);
    NamesOnce(es, i);
    RepeatCount(Names(es), k, es[i].name);
    CardsFollowEntries(es, s.session.isAuthenticated);
  }

  // ---- Interleavings --------------------------------------------------------------------

  /** Logging out while the identity check is pending does not stick: a 2xx answer
      arriving afterwards authenticates a page that holds no token, and the next
      signup goes out with no bearer token. */
  lemma LogoutDuringRestore(token: string, name: string, activity: string, email: string)
    requires token != ""
    ensures var s := RestoreCompleted(LoggedOut(Initial(Some(token))), Ok(name));
            && s.session.isAuthenticated && s.session.authToken == None && s.stored == None
            && SignupSubmitted(s, activity, email).net.requests
                 == s.net.requests + [SignupRequest(activity, email, None)]
  {
  }

  /** Logging in while a stale identity check is pending is undone when that check
      is rejected: the fresh token is removed from memory and storage. */
  lemma LoginUndoneByStaleRestore(token: string, username: string, password: string, g: Grant, o: Outcome<string>)
    requires token != "" && !o.Ok?
    ensures var loggedIn := LoginCompleted(LoginSubmitted(Initial(Some(token)), username, password), Ok(g));
            var s := RestoreCompleted(loggedIn, o);
            && loggedIn.session.isAuthenticated && loggedIn.stored == Some(g.accessToken)
            && !s.session.isAuthenticated && s.session.authToken == None && s.stored == None
  {
  }
}
