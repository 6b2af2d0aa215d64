/** The page script's state as a value, and one transition per event.

    The script keeps its session in closure variables (`authToken`,
    `isAuthenticated`), one storage entry "authToken", the status line
    `messageDiv`, the login form's message, the activities list and the
    activity select. Every handler runs to its first `await` when an event
    arrives and finishes when the network answers; the model splits each
    handler at that point, so an event that issues a request is one transition
    and the request's completion, with the network's answer as a parameter, is
    another. The two awaits of a handler (`fetch`, then `response.json()`) are
    one completion, since no handler changes any state between them. A pending
    5-second hide timer is a count: each one hides whatever message is showing
    when it fires. */
module PageState {
  import opened Optional
  import opened Roster

  /** The class of a status line: as the markup leaves it, "success" or "error". */
  datatype Kind = Neutral | Success | Error

  datatype Message = Message(text: string, kind: Kind, visible: bool)

  /** The activities list: the placeholder of the markup, the rebuilt cards, or the failure notice. */
  datatype ListView = Loading | Cards(cards: seq<Card>) | LoadFailed

  /** The network's answer to a request whose body the handler reads as JSON.
      Ok: a 2xx status with a parsed body. Rejected: any other status, with the
      body's `detail` when the handler reads one. NetworkError: `fetch` rejected.
      MalformedBody: the body was not JSON, or was JSON `null`, so that reading a
      field of it throws. */
  datatype Outcome<P> = Ok(payload: P) | Rejected(detail: Option<string>) | NetworkError | MalformedBody

  /** The body of a successful login. */
  datatype Grant = Grant(accessToken: string, teacherName: string)

  /** The answer to GET /activities. Received: a body that parsed as JSON, whatever
      the status. Unreadable: `fetch` rejected, or the body was not JSON or was
      JSON `null`, which `Object.entries` refuses. */
  datatype ActivitiesReply = Received(ok: bool, entries: seq<Entry>) | Unreadable

  /** A request the page issued, with the bearer token it carried (None is sent as "Bearer null"). */
  datatype Request =
    | IdentityCheck(bearer: Option<string>)
    | LoginRequest(username: string, password: string)
    | ListActivities
    | SignupRequest(activity: string, email: string, bearer: Option<string>)
    | UnregisterRequest(activity: string, email: string, bearer: Option<string>)

  /** A handler waiting for the network. */
  datatype Pending = Restoring | LoggingIn | Fetching | SigningUp | Unregistering

  /** How many handlers of each kind are waiting for the network. */
  datatype Waiting = Waiting(restoring: nat, loggingIn: nat, fetching: nat, signingUp: nat, unregistering: nat)
  {
    function Count(p: Pending): nat
    {
      match p
      case Restoring => restoring
      case LoggingIn => loggingIn
      case Fetching => fetching
      case SigningUp => signingUp
      case Unregistering => unregistering
    }

    /** One more handler of kind p waits. */
    function Add(p: Pending): (w: Waiting)
      ensures w.Count(p) == Count(p) + 1
    {
      match p
      case Restoring => this.(restoring := restoring + 1)
      case LoggingIn => this.(loggingIn := loggingIn + 1)
      case Fetching => this.(fetching := fetching + 1)
      case SigningUp => this.(signingUp := signingUp + 1)
      case Unregistering => this.(unregistering := unregistering + 1)
    }

    /** A handler of kind p has resumed. */
    function Remove(p: Pending): (w: Waiting)
      requires Count(p) > 0
      ensures w.Count(p) == Count(p) - 1
    {
      match p
      case Restoring => this.(restoring := restoring - 1)
      case LoggingIn => this.(loggingIn := loggingIn - 1)
      case Fetching => this.(fetching := fetching - 1)
      case SigningUp => this.(signingUp := signingUp - 1)
      case Unregistering => this.(unregistering := unregistering - 1)
    }
  }

  const NoneWaiting := Waiting(0, 0, 0, 0, 0)

  /** The closure variables `authToken` and `isAuthenticated`. */
  datatype Session = Session(authToken: Option<string>, isAuthenticated: bool)

  /** What `showAuthenticatedState`/`showUnauthenticatedState` switch: whether the
      signup form and user info show (and the login section and the teacher-only
      notice hide), and the teacher name shown. */
  datatype AuthView = AuthView(teacherView: bool, teacherName: string)

  /** The status line `messageDiv` and the hide timers scheduled against it and not yet fired. */
  datatype Status = Status(message: Message, timers: nat)

  /** The activities list and the activity select's options, in order. */
  datatype RosterDom = RosterDom(list: ListView, options: seq<string>)

  /** The handlers waiting for an answer, and every request issued, in order. */
  datatype Network = Network(inFlight: Waiting, requests: seq<Request>)

  datatype State = State(
    session: Session,
    stored: Option<string>,     // the storage entry "authToken"
    view: AuthView,
    loginMessage: Message,
    status: Status,
    signupResets: nat,          // how often the signup form was reset
    roster: RosterDom,
    net: Network)

  const SignupNeedsLogin := "You must be logged in as a teacher to register students."
  const UnregisterNeedsLogin := "You must be logged in as a teacher to unregister students."
  const SignupFailed := "Failed to sign up. Please try again."
  const UnregisterFailed := "Failed to unregister. Please try again."
  const GenericError := "An error occurred"
  const LoginRejected := "Login failed"
  const LoginFailed := "Login failed. Please try again."

  /** JavaScript truthiness of a string that may be null: the empty string is false. */
  predicate Truthy(t: Option<string>)
  {
    t.Some? && t.value != ""
  }

  /** `detail || fallback` */
  function DetailOr(detail: Option<string>, fallback: string): string
  {
    if Truthy(detail) then detail.value else fallback
  }

  function Issue(n: Network, r: Request, waiting: Pending): Network
  {
    Network(n.inFlight.Add(waiting), n.requests + [r])
  }

  function Resume(n: Network, waiting: Pending): Network
    requires n.inFlight.Count(waiting) > 0
  {
    n.(inFlight := n.inFlight.Remove(waiting))
  }

  function ShowAuthenticated(s: State, name: string): State
  {
    s.(view := AuthView(true, name))
  }

  function ShowUnauthenticated(s: State): State
  {
    s.(view := s.view.(teacherView := false), session := s.session.(isAuthenticated := false))
  }

  /** The synchronous part of `fetchActivities`: the GET is issued. */
  function FetchStarted(s: State): State
  {
    s.(net := Issue(s.net, ListActivities, Fetching))
  }

  /** The state right after the script's set-up: the token read from storage,
      not authenticated, the markup's placeholder list, nothing issued. */
  function Loaded(stored: Option<string>): State
  {
    var blank := Message("", Neutral, false);
    State(Session(stored, false), stored, AuthView(false, ""), blank, Status(blank, 0), 0,
          RosterDom(Loading, []), Network(NoneWaiting, []))
  }

  /** The synchronous part of `checkAuth`: with a truthy token the identity check
      is issued, otherwise the signed-out view is shown. */
  function CheckAuthStarted(s: State): (t: State)
    ensures Truthy(s.session.authToken) ==>
              && t.net.requests == s.net.requests + [IdentityCheck(s.session.authToken)]
              && t.net.inFlight.Count(Restoring) == s.net.inFlight.Count(Restoring) + 1
              && t.session == s.session && t.stored == s.stored
    ensures !Truthy(s.session.authToken) ==>
              t.net == s.net && !t.session.isAuthenticated && !t.view.teacherView
  {
    if Truthy(s.session.authToken) then s.(net := Issue(s.net, IdentityCheck(s.session.authToken), Restoring))
    else ShowUnauthenticated(s)
  }

  /** Page load: `checkAuth()` then `fetchActivities()`. */
  function Initial(stored: Option<string>): (s: State)
    ensures !s.session.isAuthenticated && s.session.authToken == stored && s.stored == stored
    ensures s.net.requests == (if Truthy(stored) then [IdentityCheck(stored)] else []) + [ListActivities]
  {
    FetchStarted(CheckAuthStarted(Loaded(stored)))
  }

  /** `checkAuth` after GET /auth/me answers. */
  function RestoreCompleted(s: State, o: Outcome<string>): (t: State)
    requires s.net.inFlight.Count(Restoring) > 0
    ensures t.session.isAuthenticated <==> o.Ok?
    ensures o.Ok? ==> t.session.authToken == s.session.authToken && t.stored == s.stored
    ensures !o.Ok? ==> t.session.authToken == None && t.stored == None
    ensures t.net.requests == s.net.requests && t.roster == s.roster && t.status == s.status
  {
    var s := s.(net := Resume(s.net, Restoring));
    if o.Ok? then ShowAuthenticated(s.(session := s.session.(isAuthenticated := true)), o.payload)
    else ShowUnauthenticated(s.(session := s.session.(authToken := None), stored := None))
  }

  function LoginSubmitted(s: State, username: string, password: string): State
  {
    s.(net := Issue(s.net, LoginRequest(username, password), LoggingIn))
  }

  /** The login handler after POST /auth/login answers. */
  function LoginCompleted(s: State, o: Outcome<Grant>): (t: State)
    requires s.net.inFlight.Count(LoggingIn) > 0
    ensures o.Ok? ==> && t.session == Session(Some(o.payload.accessToken), true)
                      && t.stored == Some(o.payload.accessToken)
                      && !t.loginMessage.visible
    ensures !o.Ok? ==> && t.session == s.session && t.stored == s.stored
                       && t.loginMessage.visible && t.loginMessage.kind == Error
    ensures t.net.requests == s.net.requests && t.roster == s.roster && t.status == s.status
  {
    var s := s.(net := Resume(s.net, LoggingIn));
    if o.Ok? then
      var token := o.payload.accessToken;
      ShowAuthenticated(
        s.(session := Session(Some(token), true), stored := Some(token),
           loginMessage := s.loginMessage.(visible := false)),
        o.payload.teacherName)
    else if o.Rejected? then s.(loginMessage := Message(DetailOr(o.detail, LoginRejected), Error, true))
    else s.(loginMessage := Message(LoginFailed, Error, true))
  }

  function LoggedOut(s: State): (t: State)
    ensures t.session == Session(None, false) && t.stored == None && !t.view.teacherView
    ensures t.net == s.net && t.roster == s.roster && t.status == s.status
  {
    ShowUnauthenticated(s.(session := s.session.(authToken := None), stored := None))
  }

  /** The shared first half of both mutations: refuse locally when signed out,
      otherwise issue the request with the current token. */
  function MutationStarted(s: State, refusal: string, request: Request, waiting: Pending): (t: State)
    ensures s.session.isAuthenticated ==>
              && t.net.requests == s.net.requests + [request]
              && t.net.inFlight.Count(waiting) == s.net.inFlight.Count(waiting) + 1
              && t.status == s.status
    ensures !s.session.isAuthenticated ==>
              t.net == s.net && t.status == Status(Message(refusal, Error, true), s.status.timers)
    ensures t == s.(status := t.status, net := t.net)
  {
    if !s.session.isAuthenticated then s.(status := s.status.(message := Message(refusal, Error, true)))
    else s.(net := Issue(s.net, request, waiting))
  }

  function SignupSubmitted(s: State, activity: string, email: string): State
  {
    MutationStarted(s, SignupNeedsLogin, SignupRequest(activity, email, s.session.authToken), SigningUp)
  }

  function UnregisterClicked(s: State, activity: string, email: string): State
  {
    MutationStarted(s, UnregisterNeedsLogin, UnregisterRequest(activity, email, s.session.authToken), Unregistering)
  }

  /** The shared second half of both mutations. `resetsForm` is true for signup. */
  function MutationCompleted(s: State, o: Outcome<string>, waiting: Pending, failure: string, resetsForm: bool): (t: State)
    requires s.net.inFlight.Count(waiting) > 0
    ensures t.status.message.visible
    ensures t.status.message.kind == (if o.Ok? then Success else Error)
    ensures t.net.requests == s.net.requests + (if o.Ok? then [ListActivities] else [])
    ensures t.status.timers == s.status.timers + (if o.Ok? || o.Rejected? then 1 else 0)
    ensures t.signupResets == s.signupResets + (if o.Ok? && resetsForm then 1 else 0)
    ensures t == s.(status := t.status, signupResets := t.signupResets, net := t.net)
  {
    var s := s.(net := Resume(s.net, waiting));
    if o.Ok? then
      FetchStarted(s.(status := Status(Message(o.payload, Success, true), s.status.timers + 1),
                      signupResets := if resetsForm then s.signupResets + 1 else s.signupResets))
    else if o.Rejected? then
      s.(status := Status(Message(DetailOr(o.detail, GenericError), Error, true), s.status.timers + 1))
    else s.(status := s.status.(message := Message(failure, Error, true)))
  }

  function SignupCompleted(s: State, o: Outcome<string>): State
    requires s.net.inFlight.Count(SigningUp) > 0
  {
    MutationCompleted(s, o, SigningUp, SignupFailed, true)
  }

  function UnregisterCompleted(s: State, o: Outcome<string>): State
    requires s.net.inFlight.Count(Unregistering) > 0
  {
    MutationCompleted(s, o, Unregistering, UnregisterFailed, false)
  }

  /** A pending hide timer fires: it hides the message showing now, whichever that is. */
  function TimerFired(s: State): (t: State)
    requires s.status.timers > 0
    ensures !t.status.message.visible
    ensures t.status.message.text == s.status.message.text && t.status.message.kind == s.status.message.kind
    ensures t.status.timers == s.status.timers - 1
    ensures t == s.(status := t.status)
  {
    s.(status := Status(s.status.message.(visible := false), s.status.timers - 1))
  }

  /** `fetchActivities` after GET /activities answers: the list is cleared and one
      card per entry is appended, and one option per entry is appended to the
      select, until an entry throws; a throw (or an unreadable answer) replaces
      the list with the failure notice and keeps the options appended so far. */
  function FetchCompleted(s: State, r: ActivitiesReply): (t: State)
    requires s.net.inFlight.Count(Fetching) > 0
    ensures t.roster.list.Cards? <==> r.Received? && WellFormed(r.entries)
    ensures s.roster.options <= t.roster.options
    ensures t.net.requests == s.net.requests
    ensures t == s.(roster := t.roster, net := t.net)
  {
    var s := s.(net := Resume(s.net, Fetching));
    match r
    case Unreadable => s.(roster := s.roster.(list := LoadFailed))
    case Received(_, es) =>
      var k := FirstMalformed(es);
      assert es[..|es|] == es;
      var list := if k == |es| then Cards(RenderCards(es, s.session.isAuthenticated)) else LoadFailed;
      s.(roster := RosterDom(list, s.roster.options + Names(es[..k])))
  }

  /** A delete button is on the page for participant p of card c. */
  predicate HasDeleteButton(s: State, c: nat, p: nat)
  {
    var list := s.roster.list;
    && list.Cards?
    && c < |list.cards|
    && list.cards[c].participants.Listed?
    && p < |list.cards[c].participants.items|
    && list.cards[c].participants.items[p].deleteButton
  }
}
