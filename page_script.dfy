/** The page script itself: the closure of the DOMContentLoaded handler as an
    object whose fields the handlers update in place. Each method except the two
    view helpers, which the events call, is one event (a user action, a network
    answer, a timer) and is specified by the transition of PageState that it
    performs. */
module PageScript {
  import opened Optional
  import opened Roster
  import opened PageState

  class Page {
    var session: Session
    var stored: Option<string>
    var view: AuthView
    var loginMessage: Message
    var status: Status
    var signupResets: nat
    var roster: RosterDom
    var net: Network

    function Snapshot(): State
      reads this
    {
      State(session, stored, view, loginMessage, status, signupResets, roster, net)
    }

    /** The script runs on a page whose storage holds `storedToken`: it reads the
        token, then calls `checkAuth()` and `fetchActivities()`. */
    constructor (storedToken: Option<string>)
      ensures Snapshot() == Initial(storedToken)
    {
      session := Session(storedToken, false);
      stored := storedToken;
      view := AuthView(false, "");
      loginMessage := Message("", Neutral, false);
      status := Status(Message("", Neutral, false), 0);
      signupResets := 0;
      roster := RosterDom(Loading, []);
      net := Network(NoneWaiting, []);
      new;
      CheckAuth();
      FetchActivities();
    }

    method ShowAuthenticatedState(name: string)
      modifies this
      ensures Snapshot() == ShowAuthenticated(old(Snapshot()), name)
    {
      view := AuthView(true, name);
    }

    method ShowUnauthenticatedState()
      modifies this
      ensures Snapshot() == ShowUnauthenticated(old(Snapshot()))
    {
      view := view.(teacherView := false);
      session := session.(isAuthenticated := false);
    }

    /** `checkAuth` up to its request. */
    method CheckAuth()
      modifies this
      ensures Snapshot() == CheckAuthStarted(old(Snapshot()))
    {
      var token := session.authToken;
      if token.Some? && token.value != "" {
        net := Network(net.inFlight.Add(Restoring), net.requests + [IdentityCheck(token)]);
      } else {
        ShowUnauthenticatedState();
      }
    }

    /** `checkAuth` after the identity check answers. */
    method CompleteCheckAuth(o: Outcome<string>)
      requires net.inFlight.Count(Restoring) > 0
      modifies this
      ensures Snapshot() == RestoreCompleted(old(Snapshot()), o)
    {
      net := net.(inFlight := net.inFlight.Remove(Restoring));
      if o.Ok? {
        session := session.(isAuthenticated := true);
        ShowAuthenticatedState(o.payload);
      } else {
        stored := None;
        session := session.(authToken := None);
        ShowUnauthenticatedState();
      }
    }

    /** The login form is submitted. */
    method SubmitLogin(username: string, password: string)
      modifies this
      ensures Snapshot() == LoginSubmitted(old(Snapshot()), username, password)
    {
      net := Network(net.inFlight.Add(LoggingIn), net.requests + [LoginRequest(username, password)]);
    }

    /** The login handler after the login request answers. */
    method CompleteLogin(o: Outcome<Grant>)
      requires net.inFlight.Count(LoggingIn) > 0
      modifies this
      ensures Snapshot() == LoginCompleted(old(Snapshot()), o)
    {
      net := net.(inFlight := net.inFlight.Remove(LoggingIn));
      if o.Ok? {
        var token := o.payload.accessToken;
        session := session.(authToken := Some(token));
        stored := Some(token);
        session := session.(isAuthenticated := true);
        ShowAuthenticatedState(o.payload.teacherName);
        loginMessage := loginMessage.(visible := false);
      } else if o.Rejected? {
        loginMessage := Message(DetailOr(o.detail, LoginRejected), Error, true);
      } else {
        loginMessage := Message(LoginFailed, Error, true);
      }
    }

    /** The logout button. */
    method Logout()
      modifies this
      ensures Snapshot() == LoggedOut(old(Snapshot()))
    {
      stored := None;
      session := session.(authToken := None);
      ShowUnauthenticatedState();
    }

    /** `fetchActivities` up to its request. */
    method FetchActivities()
      modifies this
      ensures Snapshot() == FetchStarted(old(Snapshot()))
    {
      net := Network(net.inFlight.Add(Fetching), net.requests + [ListActivities]);
    }

    /** `fetchActivities` after the activities request answers: the list is cleared
        and rebuilt entry by entry, each entry also appending its option, until an
        entry throws and the failure notice replaces the list. */
    method CompleteFetch(r: ActivitiesReply)
      requires net.inFlight.Count(Fetching) > 0
      modifies this
      ensures Snapshot() == FetchCompleted(old(Snapshot()), r)
    {
      net := net.(inFlight := net.inFlight.Remove(Fetching));
      if r.Unreadable? {
        roster := roster.(list := LoadFailed);
        return;
      }
      var es := r.entries;
      var authenticated := session.isAuthenticated;
      roster := roster.(list := Cards([]));
      var i := 0;
      while i < |es|
        invariant 0 <= i <= |es|
        invariant WellFormed(es[..i])
        invariant roster == RosterDom(Cards(RenderCards(es[..i], authenticated)), old(roster.options) + Names(es[..i]))
        invariant session == old(session) && stored == old(stored) && view == old(view)
        invariant loginMessage == old(loginMessage) && status == old(status) && signupResets == old(signupResets)
        invariant net == old(net).(inFlight := old(net).inFlight.Remove(Fetching))
      {
        if es[i].details.None? {
          FirstMalformedAt(es, i);
          roster := roster.(list := LoadFailed);
          return;
        }
        var card := RenderCard(es[i].name, es[i].details.value, authenticated);
        RenderStep(es, i, authenticated);
        roster := RosterDom(Cards(roster.list.cards + [card]), roster.options + [es[i].name]);
        i := i + 1;
      }
      assert es[..i] == es;
      FirstMalformedAt(es, i);
    }

    /** The signup form is submitted with the chosen activity and email. */
    method SubmitSignup(activity: string, email: string)
      modifies this
      ensures Snapshot() == SignupSubmitted(old(Snapshot()), activity, email)
    {
      if !session.isAuthenticated {
        status := status.(message := Message(SignupNeedsLogin, Error, true));
        return;
      }
      net := Network(net.inFlight.Add(SigningUp), net.requests + [SignupRequest(activity, email, session.authToken)]);
    }

    /** The signup handler after its request answers. */
    method CompleteSignup(o: Outcome<string>)
      requires net.inFlight.Count(SigningUp) > 0
      modifies this
      ensures Snapshot() == SignupCompleted(old(Snapshot()), o)
    {
      net := net.(inFlight := net.inFlight.Remove(SigningUp));
      if o.Ok? {
        status := status.(message := Message(o.payload, Success, true));
        signupResets := signupResets + 1;
        FetchActivities();
        status := status.(timers := status.timers + 1);
      } else if o.Rejected? {
        status := status.(message := Message(DetailOr(o.detail, GenericError), Error, true));
        status := status.(timers := status.timers + 1);
      } else {
        status := status.(message := Message(SignupFailed, Error, true));
      }
    }

    /** The delete button after participant `p` of card `c` is clicked; the button
        carries that card's activity name and that participant's email. */
    method ClickDelete(c: nat, p: nat)
      requires HasDeleteButton(Snapshot(), c, p)
      modifies this
      ensures var card := old(roster).list.cards[c];
              Snapshot() == UnregisterClicked(old(Snapshot()), card.name, card.participants.items[p].email)
    {
      var card := roster.list.cards[c];
      var activity := card.name;
      var email := card.participants.items[p].email;
      if !session.isAuthenticated {
        status := status.(message := Message(UnregisterNeedsLogin, Error, true));
        return;
      }
      net := Network(net.inFlight.Add(Unregistering), net.requests + [UnregisterRequest(activity, email, session.authToken)]);
    }

    /** `handleUnregister` after its request answers. */
    method CompleteUnregister(o: Outcome<string>)
      requires net.inFlight.Count(Unregistering) > 0
      modifies this
      ensures Snapshot() == UnregisterCompleted(old(Snapshot()), o)
    {
      net := net.(inFlight := net.inFlight.Remove(Unregistering));
      if o.Ok? {
        status := status.(message := Message(o.payload, Success, true));
        FetchActivities();
        status := status.(timers := status.timers + 1);
      } else if o.Rejected? {
        status := status.(message := Message(DetailOr(o.detail, GenericError), Error, true));
        status := status.(timers := status.timers + 1);
      } else {
        status := status.(message := Message(UnregisterFailed, Error, true));
      }
    }

    /** One of the pending 5-second timers fires. */
    method FireTimer()
      requires status.timers > 0
      modifies this
      ensures Snapshot() == TimerFired(old(Snapshot()))
    {
      status := status.(message := status.message.(visible := false));
      status := status.(timers := status.timers - 1);
    }
  }
}
