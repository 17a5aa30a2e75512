/**
 * The HTTP routes of the API server as one decision function from a
 * request (its `Authorization` header and route with parameters) and the
 * state of storage to a status and body.  Schema validation is the
 * presence of a parsed body (`None` when the schema rejects it).
 */
module Policy {
  import opened Js
  import opened Auth

  const StatusOk: nat := 200
  const StatusCreated: nat := 201
  const StatusBadRequest: nat := 400
  const StatusUnauthorized: nat := 401
  const StatusForbidden: nat := 403
  const StatusNotFound: nat := 404

  datatype Credentials = Credentials(username: string, password: string)

  /** What the storage port holds, as far as the handlers consult it. */
  datatype Store = Store(
    sessions: map<string, User>,
    accounts: set<Credentials>,
    clients: seq<string>,
    conversations: map<string, string>,
    tests: set<string>,
    assignments: set<string>)

  /** The parsed body of POST /api/conversations. */
  datatype NewConversation = NewConversation(clientId: string)

  /** The parsed body of POST /api/messages. */
  datatype NewMessage = NewMessage(conversationId: JsStr)

  /** Routes registered without the `authenticate` middleware. */
  datatype PublicRoute =
    | Login(credentials: Option<Credentials>)
    | GetTest(testId: string)
    | UpdateAssignment(assignmentId: string)
    | ListRoiMetrics(roiClientId: JsStr)
    | CreateRoiMetric(roiValid: bool)
    | ListActivities(activityClientId: JsStr, limit: JsStr)
    | CreateActivity(activityValid: bool)
    | GmailSync

  /** Routes registered behind the `authenticate` middleware. */
  datatype GuardedRoute =
    | Logout
    | Me
    | DashboardMetrics(csmId: JsStr)
    | ListClients
    | CreateClient(clientValid: bool)
    | GetClient(id: string)
    | ListConversations(filterClientId: JsStr, filterCsmId: JsStr)
    | CreateConversation(conversation: Option<NewConversation>)
    | ListMessages(conversationId: string)
    | CreateMessage(message: Option<NewMessage>)
    | ListTests(createdBy: JsStr)
    | CreateTest(testValid: bool)
    | ListAssignments(assignmentClientId: JsStr, assignmentTestId: JsStr)
    | CreateAssignment(assignmentValid: bool)

  datatype Route = Open(open: PublicRoute) | Guarded(guarded: GuardedRoute)

  /** The `limit` handed to `getActivities`: a number, or the text given to `parseInt`. */
  datatype Limit = Fixed(n: nat) | ParseIntOf(text: string)

  datatype Body =
    | Error(message: string)
    | Record
    | Profile(user: User)
    | Notice(notice: string)
    | Metrics(metricsCsmId: string)
    | Clients(ids: seq<string>)
    | Conversations(clientFilter: JsStr, csmFilter: JsStr)
    | Activities(activitiesClientId: JsStr, activitiesLimit: Limit)

  datatype Response = Response(status: nat, body: Body)

  function Fail(status: nat, message: string): Response
  {
    Response(status, Error(message))
  }

  /** Handles one request: guarded routes pass `authenticate` first. */
  function Handle(header: Option<string>, route: Route, store: Store): (r: Response)
    ensures r.status >= 400 <==> r.body.Error?
    ensures route.Guarded? ==> (r.status == StatusUnauthorized <==> SessionCheck(header, store.sessions).Rejected?)
    ensures route.Open? && r.status == StatusUnauthorized ==> route.open.Login?
  {
    match route
    case Open(p) => HandlePublic(p, store)
    case Guarded(g) =>
      match SessionCheck(header, store.sessions)
      case Rejected(e) => Fail(StatusUnauthorized, e)
      case Admitted(user) => HandleGuarded(g, user, store)
  }

  /** A public route answers one of five statuses; only a failed login is 401. */
  function HandlePublic(route: PublicRoute, store: Store): (r: Response)
    ensures r.status in {StatusOk, StatusCreated, StatusBadRequest, StatusUnauthorized, StatusNotFound}
    ensures r.status >= 400 <==> r.body.Error?
    ensures r.status == StatusUnauthorized ==> route.Login?
  {
    match route
    case Login(credentials) =>
      if credentials.None? then Fail(StatusBadRequest, "Invalid login data")
      else if credentials.value !in store.accounts then Fail(StatusUnauthorized, "Invalid username or password")
      else Response(StatusOk, Record)
    case GetTest(id) =>
      if id !in store.tests then Fail(StatusNotFound, "Test not found") else Response(StatusOk, Record)
    case UpdateAssignment(id) =>
      if id !in store.assignments then Fail(StatusNotFound, "Test assignment not found")
      else Response(StatusOk, Record)
    case ListRoiMetrics(_) => Response(StatusOk, Record)
    case CreateRoiMetric(valid) =>
      if !valid then Fail(StatusBadRequest, "Invalid ROI metric data") else Response(StatusCreated, Record)
    case ListActivities(clientId, limit) =>
      Response(StatusOk, Activities(clientId, if Truthy(limit) then ParseIntOf(limit.s) else Fixed(10)))
    case CreateActivity(valid) =>
      if !valid then Fail(StatusBadRequest, "Invalid activity data") else Response(StatusCreated, Record)
    case GmailSync => Response(StatusOk, Record)
  }

  predicate IsCsm(user: User) { user.role == "csm" }

  predicate IsClient(user: User) { user.role == "client" }

  /** The owner of a conversation as `conversation?.clientId` yields it. */
  function OwnerOf(conversationId: string, store: Store): JsStr
  {
    if conversationId in store.conversations then Str(store.conversations[conversationId]) else Undefined
  }

  /**
   * A guarded route past `authenticate` never answers 401, and never
   * answers a csm with 403.
   */
  function HandleGuarded(route: GuardedRoute, user: User, store: Store): (r: Response)
    ensures r.status in {StatusOk, StatusCreated, StatusBadRequest, StatusForbidden, StatusNotFound}
    ensures r.status >= 400 <==> r.body.Error?
    ensures IsCsm(user) ==> r.status != StatusForbidden
  {
    match route
    case Logout => Response(StatusOk, Notice("Logged out successfully"))
    case Me => Response(StatusOk, Profile(user))
    case DashboardMetrics(csmId) => Response(StatusOk, Metrics(Or(csmId, "csm-1")))
    case ListClients =>
      if IsCsm(user) then Response(StatusOk, Clients(store.clients))
      else if IsClient(user) then
        if !Truthy(user.clientId) then Fail(StatusForbidden, "Client user has no associated client")
        else Response(StatusOk, Clients(if user.clientId.s in store.clients then [user.clientId.s] else []))
      else Fail(StatusForbidden, "Unauthorized role")
    case CreateClient(valid) =>
      if !IsCsm(user) then Fail(StatusForbidden, "Only CSMs can create clients")
      else if !valid then Fail(StatusBadRequest, "Invalid client data")
      else Response(StatusCreated, Record)
    case GetClient(id) =>
      if IsClient(user) && user.clientId != Str(id) then Fail(StatusForbidden, "Can only access your own client data")
      else if id !in store.clients then Fail(StatusNotFound, "Client not found")
      else Response(StatusOk, Record)
    case ListConversations(clientId, csmId) =>
      if IsCsm(user) then Response(StatusOk, Conversations(clientId, csmId))
      else if IsClient(user) then Response(StatusOk, Conversations(Str(Or(user.clientId, "")), Undefined))
      else Fail(StatusForbidden, "Unauthorized role")
    case CreateConversation(conversation) =>
      if conversation.None? then Fail(StatusBadRequest, "Invalid conversation data")
      else if IsClient(user) && Str(conversation.value.clientId) != user.clientId then
        Fail(StatusForbidden, "Can only create conversations for your own client")
      else Response(StatusCreated, Record)
    case ListMessages(id) =>
      if id !in store.conversations then Fail(StatusNotFound, "Conversation not found")
      else if IsClient(user) && Str(store.conversations[id]) != user.clientId then
        Fail(StatusForbidden, "Can only access your own conversations")
      else Response(StatusOk, Record)
    case CreateMessage(message) =>
      if message.None? then Fail(StatusBadRequest, "Invalid message data")
      else if Truthy(message.value.conversationId) && IsClient(user)
              && OwnerOf(message.value.conversationId.s, store) != user.clientId then
        Fail(StatusForbidden, "Can only send messages to your own conversations")
      else Response(StatusCreated, Record)
    case ListTests(_) =>
      if !IsCsm(user) then Fail(StatusForbidden, "Only CSMs can access tests") else Response(StatusOk, Record)
    case CreateTest(valid) =>
      if !IsCsm(user) then Fail(StatusForbidden, "Only CSMs can create tests")
      else if !valid then Fail(StatusBadRequest, "Invalid test data")
      else Response(StatusCreated, Record)
    case ListAssignments(_, _) => Response(StatusOk, Record)
    case CreateAssignment(valid) =>
      if !valid then Fail(StatusBadRequest, "Invalid test assignment data") else Response(StatusCreated, Record)
  }

  /** The request's header admits `user` against the sessions in `store`. */
  predicate SignedIn(header: Option<string>, store: Store, user: User)
  {
    SessionCheck(header, store.sessions) == Admitted(user)
  }

  // ---------------------------------------------------------------------
  // Authentication

  /**
   * A guarded route with a missing or malformed header answers 401 and does
   * not depend on storage at all: no session lookup is made.
   */
  lemma GuardedMalformedHeader(header: Option<string>, route: GuardedRoute, store: Store, other: Store)
    requires header.None? || !Text.StartsWith(header.value, BearerPrefix)
    ensures Handle(header, Guarded(route), store) == Fail(StatusUnauthorized, "Unauthorized")
    ensures Handle(header, Guarded(route), store) == Handle(header, Guarded(route), other)
  {
  }

  /** A well-formed bearer header whose token has no session answers 401 on every guarded route. */
  lemma GuardedUnknownToken(token: string, route: GuardedRoute, store: Store)
    requires token !in store.sessions
    ensures Handle(Some(BearerPrefix + token), Guarded(route), store) ==
            Fail(StatusUnauthorized, "Invalid or expired token")
  {
    BearerTokenRoundTrip(token);
  }

  /** A guarded route answers 401 exactly when the session check rejects the header. */
  lemma GuardedUnauthorizedIff(header: Option<string>, route: GuardedRoute, store: Store)
    ensures Handle(header, Guarded(route), store).status == StatusUnauthorized <==>
            SessionCheck(header, store.sessions).Rejected?
  {
  }

  /**
   * Routes without `authenticate` never answer 401 (login aside, which
   * answers 401 for bad credentials), and their answer does not depend on
   * the header or on the sessions.
   */
  lemma PublicNeverUnauthorized(header: Option<string>, other: Option<string>, route: PublicRoute, store: Store,
                                sessions: map<string, User>)
    requires !route.Login?
    ensures Handle(header, Open(route), store).status != StatusUnauthorized
    ensures Handle(header, Open(route), store) == Handle(other, Open(route), store.(sessions := sessions))
  {
  }

  /** GET /api/activities asks storage for 10 activities when no truthy `limit` is given. */
  lemma ActivitiesDefaultLimit(header: Option<string>, clientId: JsStr, limit: JsStr, store: Store)
    requires !Truthy(limit)
    ensures Handle(header, Open(ListActivities(clientId, limit)), store) ==
            Response(StatusOk, Activities(clientId, Fixed(10)))
  {
  }

  // ---------------------------------------------------------------------
  // Clients

  /** A csm lists every client storage has. */
  lemma CsmListsAllClients(header: Option<string>, store: Store, user: User)
    requires SignedIn(header, store, user) && IsCsm(user)
    ensures Handle(header, Guarded(ListClients), store) == Response(StatusOk, Clients(store.clients))
  {
  }

  /**
   * A client-role user is refused when it has no client, and otherwise gets
   * a list of at most one client: its own, present exactly when storage has it.
   */
  lemma ClientListsOnlyOwnClient(header: Option<string>, store: Store, user: User)
    requires SignedIn(header, store, user) && IsClient(user)
    ensures var r := Handle(header, Guarded(ListClients), store);
      && (r.status == StatusForbidden <==> !Truthy(user.clientId))
      && (r.status != StatusForbidden ==>
            && r == Response(StatusOk, r.body) && r.body.Clients?
            && |r.body.ids| <= 1
            && (forall id :: id in r.body.ids ==> Str(id) == user.clientId)
            && (r.body.ids != [] <==> user.clientId.s in store.clients))
  {
  }

  /** Any role other than csm and client is refused the client list. */
  lemma OtherRoleCannotListClients(header: Option<string>, store: Store, user: User)
    requires SignedIn(header, store, user) && !IsCsm(user) && !IsClient(user)
    ensures Handle(header, Guarded(ListClients), store) == Fail(StatusForbidden, "Unauthorized role")
  {
  }

  /**
   * GET /api/clients/:id: a client-role user asking for another client is
   * refused before storage is consulted (the answer is the same whatever
   * clients exist); otherwise a missing client answers 404.
   */
  lemma GetClientOwnership(header: Option<string>, id: string, store: Store, clients: seq<string>, user: User)
    requires SignedIn(header, store, user)
    ensures IsClient(user) && user.clientId != Str(id) ==>
      && Handle(header, Guarded(GetClient(id)), store).status == StatusForbidden
      && Handle(header, Guarded(GetClient(id)), store) == Handle(header, Guarded(GetClient(id)), store.(clients := clients))
    ensures !(IsClient(user) && user.clientId != Str(id)) ==>
      Handle(header, Guarded(GetClient(id)), store).status ==
        (if id in store.clients then StatusOk else StatusNotFound)
  {
  }

  /** A user of client c1 asking for client c2 is refused. */
  lemma GetOtherClientScenario(store: Store)
    requires "t" in store.sessions && store.sessions["t"] == User("u1", "client", Str("c1"))
    ensures Handle(Some("Bearer t"), Guarded(GetClient("c2")), store).status == StatusForbidden
  {
    BearerTokenRoundTrip("t");
  }

  /**
   * Creating clients, listing tests and creating tests are for csm only:
   * any other role is refused whether or not the body is valid and
   * whatever storage holds.
   */
  lemma CsmOnlyActions(header: Option<string>, store: Store, user: User, valid: bool, createdBy: JsStr)
    requires SignedIn(header, store, user) && !IsCsm(user)
    ensures Handle(header, Guarded(CreateClient(valid)), store) == Fail(StatusForbidden, "Only CSMs can create clients")
    ensures Handle(header, Guarded(ListTests(createdBy)), store) == Fail(StatusForbidden, "Only CSMs can access tests")
    ensures Handle(header, Guarded(CreateTest(valid)), store) == Fail(StatusForbidden, "Only CSMs can create tests")
  {
  }

  // ---------------------------------------------------------------------
  // Conversations and messages

  /** A client-role user's conversation list is scoped to its own client; the query filters are ignored. */
  lemma ClientConversationsScoped(header: Option<string>, store: Store, user: User, clientId: JsStr, csmId: JsStr)
    requires SignedIn(header, store, user) && IsClient(user)
    ensures Handle(header, Guarded(ListConversations(clientId, csmId)), store) ==
            Response(StatusOk, Conversations(Str(Or(user.clientId, "")), Undefined))
  {
  }

  /**
   * A client-role user is refused exactly when the conversation it creates,
   * reads or writes into belongs to another client.
   */
  lemma ClientOwnership(header: Option<string>, store: Store, user: User, target: string, conversationId: string)
    requires SignedIn(header, store, user) && IsClient(user)
    ensures Handle(header, Guarded(CreateConversation(Some(NewConversation(target)))), store).status == StatusForbidden
            <==> Str(target) != user.clientId
    ensures conversationId in store.conversations ==>
      (Handle(header, Guarded(ListMessages(conversationId)), store).status == StatusForbidden
       <==> Str(store.conversations[conversationId]) != user.clientId)
    ensures conversationId != "" ==>
      (Handle(header, Guarded(CreateMessage(Some(NewMessage(Str(conversationId))))), store).status == StatusForbidden
       <==> OwnerOf(conversationId, store) != user.clientId)
  {
  }

  /** A csm is never answered 403, on any guarded route. */
  lemma CsmNeverForbidden(header: Option<string>, route: GuardedRoute, store: Store, user: User)
    requires SignedIn(header, store, user) && IsCsm(user)
    ensures Handle(header, Guarded(route), store).status != StatusForbidden
  {
  }

  /**
   * A body the schema rejects answers 400 on the conversation and message
   * routes, before any ownership check: a client-role user posting someone
   * else's data with a malformed body sees 400, not 403.
   */
  lemma ValidationBeforeOwnership(header: Option<string>, store: Store, user: User)
    requires SignedIn(header, store, user)
    ensures Handle(header, Guarded(CreateConversation(None)), store) == Fail(StatusBadRequest, "Invalid conversation data")
    ensures Handle(header, Guarded(CreateMessage(None)), store) == Fail(StatusBadRequest, "Invalid message data")
  {
  }
}
