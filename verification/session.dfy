/**
 * The session store of src/context/AuthContext.tsx: `isLoggedIn`, `loading`,
 * the browser storage that holds the `"auth"` token, and the one-second
 * timers that end a loading phase. Real time is not modelled: each timer is
 * a pending entry that the environment may fire at any point.
 *
 * The pure state machine (`SessionState` and its transitions) is the
 * specification; `AuthProvider` is the imperative store whose methods are
 * proved to follow it.
 */
module Session {
  import opened Wrappers
  import opened Api

  /** Which call scheduled a pending timer. */
  datatype TimerSource = FromMount | FromLogout

  datatype SessionState = SessionState(
    isLoggedIn: bool,
    loading: bool,
    storage: map<string, string>,
    pending: seq<TimerSource>,   // timers scheduled and not yet fired
    mounted: bool)               // the mount effect has run

  /** The state right after `useState(false)` and `useState(true)`, over whatever storage holds. */
  function Initial(storage: map<string, string>): SessionState
  {
    SessionState(false, true, storage, [], false)
  }

  /** The mount effect: log in if a token is stored, then schedule the end of loading. */
  function Mount(s: SessionState): (r: SessionState)
    ensures Inv(s) ==> Inv(r)
    ensures r.mounted && |r.pending| == |s.pending| + 1
  {
    s.(isLoggedIn := s.isLoggedIn || HasToken(s.storage),
       pending := s.pending + [FromMount],
       mounted := true)
  }

  function Login(s: SessionState, token: string): (r: SessionState)
    ensures Inv(s) ==> Inv(r)
  {
    s.(isLoggedIn := true, storage := s.storage[AuthKey := token])
  }

  function Logout(s: SessionState): (r: SessionState)
    ensures Inv(s) ==> Inv(r)
  {
    s.(loading := true, isLoggedIn := false,
       pending := s.pending + [FromLogout],
       storage := s.storage - {AuthKey})
  }

  /** Pending timer `i` fires: `setLoading(false)`. */
  function Fire(s: SessionState, i: nat): (r: SessionState)
    requires i < |s.pending|
    ensures Inv(s) ==> Inv(r)
  {
    s.(loading := false, pending := s.pending[..i] + s.pending[i + 1..])
  }

  /** What the session guarantees in every reachable state. */
  predicate Inv(s: SessionState)
  {
    // a logged-in session always has a stored token entry
    && (s.isLoggedIn ==> AuthKey in s.storage)
    // once mounted, a (truthy) stored token means logged in
    && (s.mounted && HasToken(s.storage) ==> s.isLoggedIn)
    // once mounted, loading always has a timer pending that will end it
    && (s.mounted && s.loading ==> |s.pending| > 0)
  }

  datatype Event = MountEvent | LoginEvent(token: string) | LogoutEvent | TimerEvent(index: nat)

  /** One step; a timer event naming no pending timer changes nothing. */
  function Step(s: SessionState, e: Event): SessionState
  {
    match e
    case MountEvent => Mount(s)
    case LoginEvent(t) => Login(s, t)
    case LogoutEvent => Logout(s)
    case TimerEvent(i) => if i < |s.pending| then Fire(s, i) else s
  }

  function Run(s: SessionState, events: seq<Event>): SessionState
    decreases |events|
  {
    if events == [] then s else Run(Step(s, events[0]), events[1..])
  }

  lemma InitialState(storage: map<string, string>)
    ensures !Initial(storage).isLoggedIn && Initial(storage).loading
    ensures Initial(storage).storage == storage
    ensures Inv(Initial(storage))
  {
  }

  /** Mount sets `isLoggedIn` exactly when a truthy token is stored, and never clears it. */
  lemma MountDecision(s: SessionState)
    ensures !s.isLoggedIn ==> (Mount(s).isLoggedIn <==> HasToken(s.storage))
    ensures s.isLoggedIn ==> Mount(s).isLoggedIn
    ensures Mount(s).loading == s.loading && Mount(s).storage == s.storage
  {
  }

  lemma StepPreservesInv(s: SessionState, e: Event)
    requires Inv(s)
    ensures Inv(Step(s, e))
  {
  }

  /** Every state reachable from a valid one by any events is valid. */
  lemma {:induction false} RunPreservesInv(s: SessionState, events: seq<Event>)
    requires Inv(s)
    ensures Inv(Run(s, events))
    decreases |events|
  {
    if events != [] {
      StepPreservesInv(s, events[0]);
      RunPreservesInv(Step(s, events[0]), events[1..]);
    }
  }

  /** Every state reachable from start-up satisfies the invariant, whatever storage held at start. */
  lemma Reachable(storage: map<string, string>, events: seq<Event>)
    ensures Inv(Run(Initial(storage), events))
  {
    RunPreservesInv(Initial(storage), events);
  }

  lemma LoginEffect(s: SessionState, token: string)
    ensures Login(s, token).isLoggedIn
    ensures AuthKey in Login(s, token).storage && Login(s, token).storage[AuthKey] == token
    ensures forall k :: k != AuthKey ==> (k in Login(s, token).storage <==> k in s.storage)
    ensures Login(s, token).loading == s.loading
  {
  }

  lemma LogoutEffect(s: SessionState)
    ensures !Logout(s).isLoggedIn && Logout(s).loading
    ensures AuthKey !in Logout(s).storage
    ensures Logout(s).storage == s.storage - {AuthKey}
    ensures |Logout(s).pending| == |s.pending| + 1
  {
  }

  /** A second logout leaves the same logged-out, token-free state. */
  lemma LogoutIdempotent(s: SessionState)
    ensures Logout(Logout(s)).isLoggedIn == Logout(s).isLoggedIn
    ensures Logout(Logout(s)).storage == Logout(s).storage
    ensures Logout(Logout(s)).loading == Logout(s).loading
  {
  }

  /** Login then logout: logged out and no token, whatever was stored before; other keys as before. */
  lemma LoginThenLogout(s: SessionState, token: string)
    ensures !Logout(Login(s, token)).isLoggedIn
    ensures Logout(Login(s, token)).storage == s.storage - {AuthKey}
    ensures AuthKey !in s.storage ==> Logout(Login(s, token)).storage == s.storage
  {
    assert Logout(Login(s, token)).storage == s.storage - {AuthKey};
  }

  /**
   * The header `request` attaches follows the session: once mounted, a
   * header means logged in; after logout none is sent; after login the
   * new token is sent unless it is empty.
   */
  lemma HeaderFollowsSession(s: SessionState, token: string)
    requires Inv(s) && s.mounted
    ensures AuthHeader(s.storage).Some? ==> s.isLoggedIn
    ensures AuthHeader(Logout(s).storage) == None
    ensures AuthHeader(Login(s, token).storage) == if token == "" then None else Some("Token " + token)
  {
  }

  /** Any pending timer, whichever call scheduled it, only ends loading. */
  lemma FireOnlyEndsLoading(s: SessionState, i: nat, j: nat)
    requires i < |s.pending| && j < |s.pending|
    ensures !Fire(s, i).loading
    ensures Fire(s, i).isLoggedIn == s.isLoggedIn && Fire(s, i).storage == s.storage
    ensures Fire(s, i).(pending := []) == Fire(s, j).(pending := [])
    ensures |Fire(s, i).pending| == |s.pending| - 1
  {
  }

  /** The session provider: React state plus the browser's storage and timer queue. */
  class AuthProvider {
    var isLoggedIn: bool
    var loading: bool
    var storage: map<string, string>
    var pending: seq<TimerSource>
    ghost var mounted: bool

    ghost function State(): SessionState
      reads this
    {
      SessionState(isLoggedIn, loading, storage, pending, mounted)
    }

    ghost predicate Valid()
      reads this
    {
      Inv(State())
    }

    constructor (initialStorage: map<string, string>)
      ensures Valid()
      ensures State() == Initial(initialStorage)
      ensures !isLoggedIn && loading && storage == initialStorage
    {
      isLoggedIn := false;
      loading := true;
      storage := initialStorage;
      pending := [];
      mounted := false;
    }

    /** The mount effect. */
    method MountEffect()
      requires Valid()
      modifies this
      ensures Valid()
      ensures State() == Mount(old(State()))
      ensures isLoggedIn == (old(isLoggedIn) || HasToken(storage))
      ensures loading == old(loading) && storage == old(storage)
    {
      var authToken := if AuthKey in storage then Some(storage[AuthKey]) else None;
      if authToken.Some? && authToken.value != "" {
        isLoggedIn := true;
      }
      pending := pending + [FromMount];
      mounted := true;
    }

    method AuthLogin(token: string)
      requires Valid()
      modifies this
      ensures Valid()
      ensures State() == Login(old(State()), token)
      ensures isLoggedIn && storage == old(storage)[AuthKey := token]
      ensures loading == old(loading) && pending == old(pending)
    {
      isLoggedIn := true;
      storage := storage[AuthKey := token];
    }

    method AuthLogout()
      requires Valid()
      modifies this
      ensures Valid()
      ensures State() == Logout(old(State()))
      ensures !isLoggedIn && loading && storage == old(storage) - {AuthKey}
      ensures pending == old(pending) + [FromLogout]
    {
      loading := true;
      isLoggedIn := false;
      pending := pending + [FromLogout];
      storage := storage - {AuthKey};
    }

    /** The environment fires pending timer `i`. */
    method TimerFires(i: nat)
      requires Valid()
      requires i < |pending|
      modifies this
      ensures Valid()
      ensures State() == Fire(old(State()), i)
      ensures !loading && isLoggedIn == old(isLoggedIn) && storage == old(storage)
    {
      loading := false;
      pending := pending[..i] + pending[i + 1..];
    }
  }
}
