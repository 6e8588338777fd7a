// The security provider's authentication manager: it logs users in through
// the remote authentication service, resolves tickets to profiles through the
// remote profile service, and memoizes ticket -> authentication in a cache.

module Authentication {
  import opened Wrappers
  import Profiles

  /** The error codes of the remote REST services that the manager tells apart. */
  datatype ErrorCode =
    | DisabledProfile
    | BadCredentials
    | NoSuchTicket
    | OtherErrorCode(name: string)  // any code other than the three above

  /** What a remote service call can throw: a REST service exception carrying
      an error code, or any other profile exception. */
  datatype ProfileFault =
    | RestServiceFault(code: ErrorCode)
    | OtherProfileFault(message: string)

  /** The three exception kinds the manager raises. */
  datatype AuthenticationError =
    | DisabledUserError
    | BadCredentialsError
    | SystemError

  /** A ticket as issued by the authentication service. */
  datatype IssuedTicket = IssuedTicket(id: string, profileId: string)

  /** The authentication handed to callers and kept in the cache. A profile
      service that answers null yields an authentication without a profile. */
  datatype Authentication = Authentication(ticket: string, profile: Option<Profiles.Profile>)

  /** The answers the remote services give during one operation. */
  datatype Backend = Backend(
    authenticate: (string, string, string) -> Result<IssuedTicket, ProfileFault>,
    getProfile: string -> Result<Option<Profiles.Profile>, ProfileFault>,
    getProfileByTicket: string -> Result<Option<Profiles.Profile>, ProfileFault>,
    invalidateTicket: string -> Outcome<ProfileFault>)

  /** The observable steps of the manager, in the order they happen:
      requests to the remote services and writes to the cache. */
  datatype Event =
    | AuthenticateRequest(tenant: string, username: string, password: string)
    | ProfileRequest(profileId: string)
    | ProfileByTicketRequest(ticket: string)
    | InvalidateRequest(ticket: string)
    | CachePut(ticket: string)
    | CacheRemove(ticket: string)

  /** The exception authenticateUser raises for a fault of either remote call. */
  function AuthenticationFailure(fault: ProfileFault): (e: AuthenticationError)
    ensures e == DisabledUserError <==> fault == RestServiceFault(DisabledProfile)
    ensures e == BadCredentialsError <==> fault == RestServiceFault(BadCredentials)
    ensures e == SystemError <==>
      fault.OtherProfileFault? || fault.code !in {DisabledProfile, BadCredentials}
  {
    match fault
    case RestServiceFault(DisabledProfile) => DisabledUserError
    case RestServiceFault(BadCredentials) => BadCredentialsError
    case _ => SystemError
  }

  /** What loadProfile makes of the profile service's answer for a ticket:
      a profile, null for an unknown ticket, or a system error. */
  function ProfileLookupOutcome(answer: Result<Option<Profiles.Profile>, ProfileFault>)
    : (r: Result<Option<Profiles.Profile>, AuthenticationError>)
    ensures forall p :: r == Success(Some(p)) <==> answer == Success(Some(p))
    ensures r == Success(None) <==> answer == Failure(RestServiceFault(NoSuchTicket))
    ensures r.Failure? ==> r.error == SystemError
    ensures r.Failure? <==> answer == Success(None) || (answer.Failure? && answer.error != RestServiceFault(NoSuchTicket))
  {
    match answer
    case Success(Some(p)) => Success(Some(p))
    case Success(None) => Failure(SystemError)
    case Failure(RestServiceFault(NoSuchTicket)) => Success(None)
    case Failure(_) => Failure(SystemError)
  }

  class AuthenticationManager {
    /** The authentication cache, ticket id -> authentication. */
    var cache: map<string, Authentication>
    /** Every remote request and cache write so far. */
    ghost var events: seq<Event>

    constructor()
      ensures cache == map[] && events == []
    {
      cache := map[];
      events := [];
    }

    /** The cached authentication for a ticket, or null on a miss. */
    function GetCachedAuthentication(ticket: string): (r: Option<Authentication>)
      reads this
      ensures r.Some? <==> ticket in cache
      ensures r.Some? ==> r.value == cache[ticket]
    {
      if ticket in cache then Some(cache[ticket]) else None
    }

    method PutAuthenticationInCache(ticket: string, authentication: Authentication)
      modifies this
      ensures cache == old(cache)[ticket := authentication]
      ensures events == old(events) + [CachePut(ticket)]
    {
      cache := cache[ticket := authentication];
      events := events + [CachePut(ticket)];
    }

    method RemoveAuthenticationFromCache(ticket: string)
      modifies this
      ensures cache == old(cache) - {ticket}
      ensures events == old(events) + [CacheRemove(ticket)]
    {
      cache := cache - {ticket};
      events := events + [CacheRemove(ticket)];
    }

    /** Asks the profile service for the ticket's profile; the cache is not touched. */
    method LoadProfile(backend: Backend, ticketId: string)
      returns (r: Result<Option<Profiles.Profile>, AuthenticationError>)
      modifies this
      ensures r == ProfileLookupOutcome(backend.getProfileByTicket(ticketId))
      ensures cache == old(cache)
      ensures events == old(events) + [ProfileByTicketRequest(ticketId)]
    {
      events := events + [ProfileByTicketRequest(ticketId)];
      r := ProfileLookupOutcome(backend.getProfileByTicket(ticketId));
    }

    /** Authenticates, fetches the ticket's profile and caches the result. Any
        fault of either call is mapped and nothing is cached. */
    method AuthenticateUser(backend: Backend, tenant: string, username: string, password: string)
      returns (r: Result<Authentication, AuthenticationError>)
      modifies this
      ensures r.Failure? ==> cache == old(cache)
      ensures r.Success? ==> cache == old(cache)[r.value.ticket := r.value]
      ensures match backend.authenticate(tenant, username, password)
        case Failure(fault) =>
          && r == Failure(AuthenticationFailure(fault))
          && events == old(events) + [AuthenticateRequest(tenant, username, password)]
        case Success(ticket) =>
          match backend.getProfile(ticket.profileId)
          case Failure(fault) =>
            && r == Failure(AuthenticationFailure(fault))
            && events == old(events) + [AuthenticateRequest(tenant, username, password),
                                        ProfileRequest(ticket.profileId)]
          case Success(profile) =>
            && r == Success(Authentication(ticket.id, profile))
            && events == old(events) + [AuthenticateRequest(tenant, username, password),
                                        ProfileRequest(ticket.profileId), CachePut(ticket.id)]
    {
      events := events + [AuthenticateRequest(tenant, username, password)];
      var issued := backend.authenticate(tenant, username, password);
      if issued.Failure? {
        return Failure(AuthenticationFailure(issued.error));
      }
      var ticket := issued.value;
      events := events + [ProfileRequest(ticket.profileId)];
      var fetched := backend.getProfile(ticket.profileId);
      if fetched.Failure? {
        return Failure(AuthenticationFailure(fetched.error));
      }
      var auth := Authentication(ticket.id, fetched.value);
      PutAuthenticationInCache(ticket.id, auth);
      r := Success(auth);
    }

    /** A cache hit is returned as is unless a reload is forced; otherwise the
        profile is loaded and, when found, cached under the ticket. */
    method GetAuthentication(backend: Backend, ticket: string, reloadProfile: bool)
      returns (r: Result<Option<Authentication>, AuthenticationError>)
      modifies this
      ensures !reloadProfile && ticket in old(cache) ==>
        && r == Success(Some(old(cache)[ticket]))
        && cache == old(cache)
        && events == old(events)
      ensures reloadProfile || ticket !in old(cache) ==>
        match ProfileLookupOutcome(backend.getProfileByTicket(ticket))
        case Success(Some(profile)) =>
          && r == Success(Some(Authentication(ticket, Some(profile))))
          && cache == old(cache)[ticket := Authentication(ticket, Some(profile))]
          && events == old(events) + [ProfileByTicketRequest(ticket), CachePut(ticket)]
        case Success(None) =>
          && r == Success(None)
          && cache == old(cache)
          && events == old(events) + [ProfileByTicketRequest(ticket)]
        case Failure(e) =>
          && r == Failure(e)
          && cache == old(cache)
          && events == old(events) + [ProfileByTicketRequest(ticket)]
    {
      var auth := GetCachedAuthentication(ticket);
      if auth.None? || reloadProfile {
        var loaded := LoadProfile(backend, ticket);
        if loaded.Failure? {
          return Failure(loaded.error);
        }
        if loaded.value.Some? {
          auth := Some(Authentication(ticket, loaded.value));
          PutAuthenticationInCache(ticket, auth.value);
        } else {
          return Success(None);
        }
      }
      r := Success(auth);
    }

    /** Removes the cache entry first and then asks the authentication service
        to invalidate the ticket; a fault of that request is a system error. */
    method InvalidateAuthentication(backend: Backend, authentication: Authentication)
      returns (r: Outcome<AuthenticationError>)
      modifies this
      ensures cache == old(cache) - {authentication.ticket}
      ensures events == old(events) + [CacheRemove(authentication.ticket),
                                       InvalidateRequest(authentication.ticket)]
      ensures r == Pass <==> backend.invalidateTicket(authentication.ticket) == Pass
      ensures r.Fail? ==> r.error == SystemError
    {
      RemoveAuthenticationFromCache(authentication.ticket);
      events := events + [InvalidateRequest(authentication.ticket)];
      var answer := backend.invalidateTicket(authentication.ticket);
      if answer.Fail? {
        return Fail(SystemError);
      }
      r := Pass;
    }
  }

  /** A fresh login followed by a lookup of its ticket: the lookup is a cache
      hit that returns the login's authentication without asking the backend. */
  method LoginThenResolve(backend: Backend, tenant: string, username: string, password: string)
    returns (login: Result<Authentication, AuthenticationError>,
             resolved: Result<Option<Authentication>, AuthenticationError>)
    requires backend.authenticate(tenant, username, password).Success?
    requires backend.getProfile(backend.authenticate(tenant, username, password).value.profileId).Success?
    ensures login.Success?
    ensures login.value.ticket == backend.authenticate(tenant, username, password).value.id
    ensures resolved == Success(Some(login.value))
  {
    var manager := new AuthenticationManager();
    login := manager.AuthenticateUser(backend, tenant, username, password);
    resolved := manager.GetAuthentication(backend, login.value.ticket, false);
  }

  /** A forced reload of a ticket the backend no longer knows returns null but
      keeps the stale cache entry, which the next plain lookup returns. */
  method StaleEntrySurvivesFailedReload(backend: Backend, tenant: string, username: string, password: string)
    returns (login: Result<Authentication, AuthenticationError>,
             reloaded: Result<Option<Authentication>, AuthenticationError>,
             cached: Result<Option<Authentication>, AuthenticationError>)
    requires backend.authenticate(tenant, username, password).Success?
    requires backend.getProfile(backend.authenticate(tenant, username, password).value.profileId).Success?
    requires backend.getProfileByTicket(backend.authenticate(tenant, username, password).value.id)
             == Failure(RestServiceFault(NoSuchTicket))
    ensures login.Success?
    ensures reloaded == Success(None)
    ensures cached == Success(Some(login.value))
  {
    var manager := new AuthenticationManager();
    login := manager.AuthenticateUser(backend, tenant, username, password);
    reloaded := manager.GetAuthentication(backend, login.value.ticket, true);
    cached := manager.GetAuthentication(backend, login.value.ticket, false);
  }

  /** A logout followed by a lookup of the same ticket: whether or not the
      invalidation request failed, the cache entry is gone, so the lookup asks
      the backend and returns null once the ticket is unknown there. */
  method LogoutThenResolve(backend: Backend, tenant: string, username: string, password: string)
    returns (logout: Outcome<AuthenticationError>,
             resolved: Result<Option<Authentication>, AuthenticationError>)
    requires backend.authenticate(tenant, username, password).Success?
    requires backend.getProfile(backend.authenticate(tenant, username, password).value.profileId).Success?
    requires backend.getProfileByTicket(backend.authenticate(tenant, username, password).value.id)
             == Failure(RestServiceFault(NoSuchTicket))
    ensures resolved == Success(None)
  {
    var manager := new AuthenticationManager();
    var login := manager.AuthenticateUser(backend, tenant, username, password);
    logout := manager.InvalidateAuthentication(backend, login.value);
    resolved := manager.GetAuthentication(backend, login.value.ticket, false);
  }

  /** When the backend resolves the ticket to the profile the login fetched,
      a cached lookup and a forced reload answer the same. */
  method CacheIsTransparent(backend: Backend, tenant: string, username: string, password: string)
    returns (cached: Result<Option<Authentication>, AuthenticationError>,
             reloaded: Result<Option<Authentication>, AuthenticationError>)
    requires backend.authenticate(tenant, username, password).Success?
    requires
      var ticket := backend.authenticate(tenant, username, password).value;
      && backend.getProfile(ticket.profileId).Success?
      && backend.getProfile(ticket.profileId).value.Some?
      && backend.getProfileByTicket(ticket.id) == backend.getProfile(ticket.profileId)
    ensures cached == reloaded
    ensures cached.Success? && cached.value.Some?
  {
    var manager := new AuthenticationManager();
    var login := manager.AuthenticateUser(backend, tenant, username, password);
    cached := manager.GetAuthentication(backend, login.value.ticket, false);
    reloaded := manager.GetAuthentication(backend, login.value.ticket, true);
  }
}
