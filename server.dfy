/** backend/server.js: the order in which the application registers its routers and handlers, how
    Express picks the first registration that matches a request, and the request cycle end to end. */
module Server {
  import opened Js
  import opened Http
  import opened SongModel
  import opened AuthMiddleware
  import opened RevokedTokenModel
  import SongRoutes
  import UserRoutes

  /** One segment of a route path: a literal, or a `:param` that takes any non-empty segment. */
  datatype Seg = Lit(name: string) | Param

  /** A route path: a fixed list of segments, or `*`. */
  datatype Pattern = Segments(segs: seq<Seg>) | Anything

  /** Every handler the application registers. Those named `Server...` are the copies in
      backend/server.js that come after the routers. */
  datatype Handler =
    | ListSongs | SearchSongs | GetSong | CreateSong | UpdateSong | DeleteSong
    | LoginPage | IndexPage | Login | Logout | AdminPanel
    | ServerLogout | ServerLogin | ServerAdmin | Check
    | ServerListSongs | ServerGetSong | ServerCreateSong | ServerUpdateSong | ServerDeleteSong
    | FrontendIndex

  datatype Route = Route(verb: Method, pattern: Pattern, guards: seq<Guard>, handler: Handler)

  /** Express routes ignore letter case by default; literal route segments here are lower-case. */
  predicate SegMatches(seg: Seg, s: string) {
    match seg
    case Lit(name) => Lower(s) == name
    case Param => s != ""
  }

  /** `path` lists the request path's segments. */
  predicate RouteMatches(r: Route, m: Method, path: seq<string>) {
    r.verb == m &&
    match r.pattern
    case Anything => true
    case Segments(segs) => |segs| == |path| && forall i :: 0 <= i < |segs| ==> SegMatches(segs[i], path[i])
  }

  /** The index of the first route that matches, as Express tries them in registration order. */
  function Resolve(table: seq<Route>, m: Method, path: seq<string>): (r: Option<nat>)
    ensures r.Some? ==> r.value < |table| && RouteMatches(table[r.value], m, path)
    ensures r.Some? ==> forall j :: 0 <= j < r.value ==> !RouteMatches(table[j], m, path)
    ensures r.None? ==> forall j :: 0 <= j < |table| ==> !RouteMatches(table[j], m, path)
  {
    if table == [] then None
    else if RouteMatches(table[0], m, path) then Some(0)
    else match Resolve(table[1..], m, path)
      case None => None
      case Some(k) => Some(k + 1)
  }

  /** Every request `b` matches, `a` matches too. */
  predicate Covers(a: Route, b: Route) {
    a.verb == b.verb &&
    match (a.pattern, b.pattern)
    case (Anything, _) => true
    case (Segments(_), Anything) => false
    case (Segments(x), Segments(y)) =>
      |x| == |y| && forall i :: 0 <= i < |x| ==> SegCovers(x[i], y[i])
  }

  predicate SegCovers(a: Seg, b: Seg) {
    match (a, b)
    case (Param, Lit(name)) => name != ""
    case (Param, Param) => true
    case (Lit(x), Lit(y)) => x == y
    case (Lit(_), Param) => false
  }

  lemma CoversSound(a: Route, b: Route, m: Method, path: seq<string>)
    requires Covers(a, b) && RouteMatches(b, m, path)
    ensures RouteMatches(a, m, path)
  {
    if a.pattern.Segments? {
      forall i | 0 <= i < |path| ensures SegMatches(a.pattern.segs[i], path[i]) {
        assert SegMatches(b.pattern.segs[i], path[i]);
      }
    }
  }

  /** A route that an earlier route covers is never chosen. */
  lemma NeverChosen(table: seq<Route>, j: nat, i: nat)
    requires j < i < |table| && Covers(table[j], table[i])
    ensures forall m, path :: Resolve(table, m, path) != Some(i)
  {
    forall m, path ensures Resolve(table, m, path) != Some(i) {
      if Resolve(table, m, path) == Some(i) {
        CoversSound(table[j], table[i], m, path);
      }
    }
  }

  /** The registrations in order: the song router mounted at `/songs` (backend/server.js line 54),
      the user router at `/` (line 55), then the handlers backend/server.js defines itself. */
  const AppRoutes: seq<Route> := [
    // backend/routes/song.js, under /songs
    Route(Get, Segments([Lit("songs")]), [], ListSongs),                      // 0
    Route(Get, Segments([Lit("songs"), Lit("search")]), [], SearchSongs),     // 1
    Route(Get, Segments([Lit("songs"), Param]), [], GetSong),                 // 2
    Route(Post, Segments([Lit("songs")]), AdminChain, CreateSong),            // 3
    Route(Put, Segments([Lit("songs"), Param]), AdminChain, UpdateSong),      // 4
    Route(Delete, Segments([Lit("songs"), Param]), AdminChain, DeleteSong),   // 5
    // backend/routes/users.js, under /
    Route(Get, Segments([Lit("login")]), [], LoginPage),                      // 6
    Route(Get, Segments([Lit("index")]), AdminChain, IndexPage),              // 7
    Route(Post, Segments([Lit("login")]), [], Login),                         // 8
    Route(Post, Segments([Lit("logout")]), [], Logout),                       // 9
    Route(Get, Segments([Lit("admin")]), AdminChain, AdminPanel),             // 10
    // backend/server.js
    Route(Post, Segments([Lit("logout")]), [], ServerLogout),                 // 11
    Route(Post, Segments([Lit("login")]), [], ServerLogin),                   // 12
    Route(Get, Segments([Lit("admin")]), AdminChain, ServerAdmin),            // 13
    Route(Get, Segments([Lit("check")]), [], Check),                          // 14
    Route(Get, Segments([Lit("songs")]), [], ServerListSongs),                // 15
    Route(Get, Segments([Lit("songs"), Param]), [], ServerGetSong),           // 16
    Route(Post, Segments([Lit("songs")]), [], ServerCreateSong),              // 17
    Route(Put, Segments([Lit("songs"), Param]), [], ServerUpdateSong),        // 18
    Route(Delete, Segments([Lit("songs"), Param]), [], ServerDeleteSong),     // 19
    Route(Get, Anything, [], FrontendIndex)                                   // 20
  ]

  /** The handlers backend/server.js defines for songs, login, logout and the admin page are dead:
      for each, a router route registered earlier matches every request it would match. */
  lemma ServerCopyIsShadowed(i: nat)
    requires i in {11, 12, 13, 15, 16, 17, 18, 19}
    ensures forall m, path :: Resolve(AppRoutes, m, path) != Some(i)
  {
    if i == 11 { NeverChosen(AppRoutes, 9, 11); }          // POST /logout
    else if i == 12 { NeverChosen(AppRoutes, 8, 12); }     // POST /login
    else if i == 13 { NeverChosen(AppRoutes, 10, 13); }    // GET /admin
    else if i == 15 { NeverChosen(AppRoutes, 0, 15); }     // GET /songs
    else if i == 16 { NeverChosen(AppRoutes, 2, 16); }     // GET /songs/:id
    else if i == 17 { NeverChosen(AppRoutes, 3, 17); }     // POST /songs
    else if i == 18 { NeverChosen(AppRoutes, 4, 18); }     // PUT /songs/:id
    else { NeverChosen(AppRoutes, 5, 19); }                // DELETE /songs/:id
  }

  /** `/search` is registered before `/:id`, so `GET /songs/search` (in any letter case) is a search,
      never a lookup of a song whose id is "search". */
  lemma SearchIsNotAnId(path: seq<string>)
    requires |path| == 2 && Lower(path[0]) == "songs" && Lower(path[1]) == "search"
    ensures Resolve(AppRoutes, Get, path) == Some(1)
  {
    assert RouteMatches(AppRoutes[1], Get, path);
  }

  /** Listing, searching and reading songs need no token; creating, updating and deleting pass
      `authenticateToken` and then `adminOnly`. */
  lemma SongRoutesGuards()
    ensures forall i :: 0 <= i < 6 ==> (AppRoutes[i].guards == AdminChain <==> AppRoutes[i].verb != Get)
    ensures forall i :: 0 <= i < 6 ==> (AppRoutes[i].guards == [] <==> AppRoutes[i].verb == Get)
  {
  }

  predicate IsServerCopy(h: Handler) {
    h in {ServerLogout, ServerLogin, ServerAdmin, ServerListSongs, ServerGetSong,
          ServerCreateSong, ServerUpdateSong, ServerDeleteSong}
  }

  /** The handlers the two routers define. */
  predicate FromRouter(h: Handler) {
    h in {ListSongs, SearchSongs, GetSong, CreateSong, UpdateSong, DeleteSong,
          LoginPage, IndexPage, Login, Logout, AdminPanel}
  }

  /** The registration order: both routers' routes come first, the server.js handlers after them,
      and the catch-all that serves the frontend last. */
  lemma AppRoutesOrder()
    ensures |AppRoutes| == 21
    ensures forall i :: 0 <= i < |AppRoutes| ==> (FromRouter(AppRoutes[i].handler) <==> i < 11)
    ensures AppRoutes[20] == Route(Get, Anything, [], FrontendIndex)
  {
  }

  /** Where the server.js copies sit in the table. */
  lemma ServerCopyIndices(i: nat)
    requires i < |AppRoutes| && IsServerCopy(AppRoutes[i].handler)
    ensures i in {11, 12, 13, 15, 16, 17, 18, 19}
  {
  }

  /** The router's song writes sit behind the admin chain. */
  lemma SongWritesGuarded(i: nat)
    requires i < |AppRoutes| && AppRoutes[i].handler in {CreateSong, UpdateSong, DeleteSong}
    ensures AppRoutes[i].guards == AdminChain
  {
  }

  /** The users router's `/index` and `/admin` pages sit behind the admin chain too. */
  lemma AdminPagesGuarded(i: nat)
    requires i < |AppRoutes| && AppRoutes[i].handler in {IndexPage, AdminPanel}
    ensures AppRoutes[i].guards == AdminChain
  {
  }

  /** The router's logout is registration 9. */
  lemma LogoutIndex(i: nat)
    requires i < |AppRoutes| && AppRoutes[i].handler == Logout
    ensures i == 9
  {
  }

  /** The server.js copies of the router handlers never run. */
  lemma ServerCopiesNeverRun(m: Method, path: seq<string>)
    ensures var r := Resolve(AppRoutes, m, path);
            r.Some? ==> !IsServerCopy(AppRoutes[r.value].handler)
  {
    var r := Resolve(AppRoutes, m, path);
    if r.Some? && IsServerCopy(AppRoutes[r.value].handler) {
      ServerCopyIndices(r.value);
      ServerCopyIsShadowed(r.value);
    }
  }

  /** An incoming request: its method, its path split into segments, the `Authorization` header,
      the `q` query parameter, and the JSON body read as song fields or as login credentials. */
  datatype Request = Request(verb: Method, path: seq<string>, authorization: Option<string>,
                             query: Option<string>, song: SongBody, username: string, password: string)

  /** Everything a request meets besides the two collections: the clock (milliseconds), whether
      the registry lookup in `authenticateToken` throws, whether the handler's own store call
      throws, `jwt.verify`, `jwt.decode`, the users, `comparePassword`, `jwt.sign`, the search's
      regular-expression test, and the `_id` the store assigns to a new song. */
  datatype Env = Env(now: int, lookupFault: bool, storeFault: bool,
                     verify: string -> Option<Claims>, decode: string -> Option<Claims>,
                     users: map<string, UserRoutes.User>, passwordMatches: (UserRoutes.User, string) -> bool,
                     sign: (UserRoutes.SignedClaims, int) -> string, matches: (string, string) -> bool,
                     newId: SongId)

  /** `req.params.id` of the two-segment song routes. */
  function IdParam(path: seq<string>): SongId {
    if |path| == 2 then path[1] else ""
  }

  /** What a request leaves behind: the reply, the songs and the registry's records. */
  datatype Outcome = Outcome(reply: Reply, docs: map<SongId, Song>, records: map<string, int>)

  /** What the chosen router handler answers and stores, once its guards have passed, stated from
      the routes' own rules: the song routes of backend/routes/song.js and the login, logout and
      page routes of backend/routes/users.js. Only the song writes touch the songs and only logout
      touches the registry; no handler lets a document that fails the validators in. */
  function HandlerOutcome(h: Handler, req: Request, env: Env, docs: map<SongId, Song>,
                          records: map<string, int>): (o: Outcome)
    requires !IsServerCopy(h)
    ensures o.docs != docs ==> h in {CreateSong, UpdateSong, DeleteSong}
    ensures o.records != records ==> h == Logout
    ensures AllConform(docs) ==> AllConform(o.docs)
  {
    var fault := env.storeFault;
    match h
    case ListSongs => Outcome(SongRoutes.ListSongs(docs, fault), docs, records)
    case SearchSongs => Outcome(SongRoutes.SearchSongs(docs, req.query, env.matches, fault), docs, records)
    case GetSong => Outcome(SongRoutes.GetSong(docs, IdParam(req.path), fault), docs, records)
    case CreateSong => CreateOutcome(req.song, env.newId, env.now, fault, docs, records)
    case UpdateSong => UpdateOutcome(IdParam(req.path), req.song, env.now, fault, docs, records)
    case DeleteSong =>
      if fault then Outcome(Failure(404, "Song not found"), docs, records)
      else Outcome(Envelope(200, true, Some("Song deleted"), NoData), docs - {IdParam(req.path)}, records)
    case LoginPage => Outcome(File("frontend/login.html"), docs, records)
    case IndexPage => Outcome(File("frontend/index.html"), docs, records)
    case Login =>
      Outcome(UserRoutes.Login(req.username, req.password, env.users, env.passwordMatches, env.sign, fault), docs, records)
    case Logout => LogoutOutcome(req.authorization, env.decode, env.now, fault, docs, records)
    case AdminPanel => Outcome(Envelope(200, true, Some("Welcome to admin panel"), NoData), docs, records)
    case Check => Outcome(Text("Server is on..."), docs, records)
    case FrontendIndex => Outcome(File("frontend-react/build/index.html"), docs, records)
  }

  /** `POST /songs` once the guards have passed: 400 before the store is touched, then the new
      document is stored under the store's fresh `_id` unless the insert fails. */
  function CreateOutcome(body: SongBody, newId: SongId, now: int, fault: bool, docs: map<SongId, Song>,
                         records: map<string, int>): (o: Outcome)
    ensures o.records == records
    ensures o.docs != docs ==> HasRequiredFields(body) && o.docs == docs[newId := NewDocument(newId, body, now)]
    ensures AllConform(docs) ==> AllConform(o.docs)
  {
    if !HasRequiredFields(body) then Outcome(Failure(400, "Required fields missing"), docs, records)
    else
      var doc := NewDocument(newId, body, now);
      if !fault && newId !in docs then Outcome(Success(201, OneSong(Some(doc))), docs[newId := doc], records)
      else Outcome(Failure(500, "Error while creating new song"), docs, records)
  }

  /** `PUT /songs/:id` once the guards have passed: the answer carries the song as it was before. */
  function UpdateOutcome(id: SongId, body: SongBody, now: int, fault: bool, docs: map<SongId, Song>,
                         records: map<string, int>): (o: Outcome)
    ensures o.records == records
    ensures o.docs != docs ==> id in docs && o.docs == docs[id := ApplyUpdate(docs[id], body, now)]
    ensures AllConform(docs) ==> AllConform(o.docs)
  {
    if !HasRequiredFields(body) then Outcome(Failure(400, "Required fields missing"), docs, records)
    else if fault then Outcome(Failure(500, "Error while updating song"), docs, records)
    else if id in docs then
      Outcome(Success(200, OneSong(Some(docs[id]))), docs[id := ApplyUpdate(docs[id], body, now)], records)
    else Outcome(Success(200, OneSong(None)), docs, records)
  }

  /** `POST /logout`: the registry gains the token's record exactly when the plan is to revoke it
      and the insert succeeds. */
  function LogoutOutcome(header: Option<string>, decode: string -> Option<Claims>, now: int, fault: bool,
                         docs: map<SongId, Song>, records: map<string, int>): (o: Outcome)
    ensures o.docs == docs
    ensures o.records != records ==> UserRoutes.PlanLogout(header, decode).Revoke?
  {
    match UserRoutes.PlanLogout(header, decode)
    case NoToken => Outcome(Failure(404, "No token provided"), docs, records)
    case NothingToRevoke => Outcome(UserRoutes.LoggedOut, docs, records)
    case Revoke(token, expiresAt) =>
      match Insert(records, token, expiresAt, now, fault)
      case Some(after) => Outcome(UserRoutes.LoggedOut, docs, after)
      case None => Outcome(Failure(500, "Logout failed"), docs, records)
  }

  /** One request through the application: the first matching registration, its guards (whose
      first rejection is the reply), then its handler; a request no registration matches gets
      Express's 404. */
  function AppOutcome(req: Request, env: Env, docs: map<SongId, Song>, records: map<string, int>): (o: Outcome)
    ensures Resolve(AppRoutes, req.verb, req.path).None? ==> o == Outcome(NotFound, docs, records)
    ensures AllConform(docs) ==> AllConform(o.docs)
  {
    match Resolve(AppRoutes, req.verb, req.path)
    case None => Outcome(NotFound, docs, records)
    case Some(i) =>
      ServerCopiesNeverRun(req.verb, req.path);
      var route := AppRoutes[i];
      match RunGuards(route.guards, req.authorization, records, env.lookupFault, env.verify, None)
      case Reject(reply) => Outcome(reply, docs, records)
      case Next(_) => HandlerOutcome(route.handler, req, env, docs, records)
  }

  /** Songs change only for a request that carries an admin token: a present, unrevoked token that
      verifies with role 'admin'. */
  lemma OnlyAdminsChangeSongs(req: Request, env: Env, docs: map<SongId, Song>, records: map<string, int>)
    ensures AppOutcome(req, env, docs, records).docs != docs ==>
              AdminAccess(req.authorization, records, env.lookupFault, env.verify)
  {
    var r := Resolve(AppRoutes, req.verb, req.path);
    if r.Some? && AppOutcome(req, env, docs, records).docs != docs {
      ServerCopiesNeverRun(req.verb, req.path);
      SongWritesGuarded(r.value);
      AdminChainAdmitsOnlyAdmins(req.authorization, records, env.lookupFault, env.verify);
    }
  }

  /** The registry changes only on `POST /logout`, which the users router's registration 9 handles. */
  lemma OnlyLogoutRevokes(req: Request, env: Env, docs: map<SongId, Song>, records: map<string, int>)
    ensures AppOutcome(req, env, docs, records).records != records ==> Resolve(AppRoutes, req.verb, req.path) == Some(9)
  {
    var r := Resolve(AppRoutes, req.verb, req.path);
    if r.Some? && AppOutcome(req, env, docs, records).records != records {
      ServerCopiesNeverRun(req.verb, req.path);
      LogoutIndex(r.value);
    }
  }

  /** The registration chosen is the first that matches. */
  lemma FirstMatch(table: seq<Route>, i: nat, m: Method, path: seq<string>)
    requires i < |table| && RouteMatches(table[i], m, path)
    requires forall j :: 0 <= j < i ==> !RouteMatches(table[j], m, path)
    ensures Resolve(table, m, path) == Some(i)
  {
  }

  /** `DELETE /songs/<id>` reaches the song router's delete, registration 5. */
  lemma DeleteResolves(path: seq<string>)
    requires |path| == 2 && Lower(path[0]) == "songs" && path[1] != ""
    ensures Resolve(AppRoutes, Delete, path) == Some(5)
  {
    var route := Route(Delete, Segments([Lit("songs"), Param]), AdminChain, DeleteSong);
    assert AppRoutes[5] == route;
    assert RouteMatches(route, Delete, path) by {
      assert SegMatches(Lit("songs"), path[0]) && SegMatches(Param, path[1]);
    }
    forall j | 0 <= j < 5 ensures !RouteMatches(AppRoutes[j], Delete, path) {
      assert AppRoutes[j].verb != Delete;
    }
    FirstMatch(AppRoutes, 5, Delete, path);
  }

  /** `GET /songs/<id>`, for an id other than "search", reaches the read by id, registration 2. */
  lemma GetByIdResolves(path: seq<string>)
    requires |path| == 2 && Lower(path[0]) == "songs" && path[1] != "" && Lower(path[1]) != "search"
    ensures Resolve(AppRoutes, Get, path) == Some(2)
  {
    var route := Route(Get, Segments([Lit("songs"), Param]), [], GetSong);
    assert AppRoutes[2] == route;
    assert RouteMatches(route, Get, path) by {
      assert SegMatches(Lit("songs"), path[0]) && SegMatches(Param, path[1]);
    }
    assert AppRoutes[0].pattern == Segments([Lit("songs")]);
    assert AppRoutes[1].pattern == Segments([Lit("songs"), Lit("search")]);
    assert !SegMatches(Lit("search"), path[1]);
    FirstMatch(AppRoutes, 2, Get, path);
  }

  /** A request whose registration's guards all call `next` gets that registration's handler. */
  lemma AdmittedRequest(req: Request, env: Env, docs: map<SongId, Song>, records: map<string, int>, i: nat)
    requires Resolve(AppRoutes, req.verb, req.path) == Some(i)
    requires RunGuards(AppRoutes[i].guards, req.authorization, records, env.lookupFault, env.verify, None).Next?
    ensures !IsServerCopy(AppRoutes[i].handler)
    ensures AppOutcome(req, env, docs, records) == HandlerOutcome(AppRoutes[i].handler, req, env, docs, records)
  {
    ServerCopiesNeverRun(req.verb, req.path);
  }

  /** A request that carries an admin token deletes exactly the song named in its path. */
  lemma {:induction false} AdminDelete(del: Request, env: Env, docs: map<SongId, Song>, records: map<string, int>)
    requires del.verb == Delete && |del.path| == 2 && Lower(del.path[0]) == "songs" && del.path[1] != ""
    requires AdminAccess(del.authorization, records, env.lookupFault, env.verify) && !env.storeFault
    ensures AppOutcome(del, env, docs, records)
            == Outcome(Envelope(200, true, Some("Song deleted"), NoData), docs - {del.path[1]}, records)
  {
    DeleteResolves(del.path);
    assert AppRoutes[5].guards == AdminChain && AppRoutes[5].handler == DeleteSong;
    AdminChainAdmitsOnlyAdmins(del.authorization, records, env.lookupFault, env.verify);
    AdmittedRequest(del, env, docs, records, 5);
  }

  /** Reading a song by id needs no token and answers the stored song, or `data: null`. */
  lemma {:induction false} ReadById(get: Request, env: Env, docs: map<SongId, Song>, records: map<string, int>)
    requires get.verb == Get && |get.path| == 2 && Lower(get.path[0]) == "songs"
    requires get.path[1] != "" && Lower(get.path[1]) != "search" && !env.storeFault
    ensures AppOutcome(get, env, docs, records).reply
            == Success(200, OneSong(if get.path[1] in docs then Some(docs[get.path[1]]) else None))
  {
    GetByIdResolves(get.path);
    assert AppRoutes[2].guards == [] && AppRoutes[2].handler == GetSong;
    AdmittedRequest(get, env, docs, records, 2);
  }

  /** An admin deletes a song, then anyone asks for it: the delete answers "Song deleted" and the
      read answers `data: null`. */
  lemma {:induction false} AdminDeleteThenGet(del: Request, get: Request, env1: Env, env2: Env,
                                              docs: map<SongId, Song>, records: map<string, int>)
    requires del.verb == Delete && get.verb == Get && |del.path| == 2 && get.path == del.path
    requires Lower(del.path[0]) == "songs" && del.path[1] != "" && Lower(del.path[1]) != "search"
    requires AdminAccess(del.authorization, records, env1.lookupFault, env1.verify)
    requires !env1.storeFault && !env2.storeFault
    ensures var a := AppOutcome(del, env1, docs, records);
            && a.reply == Envelope(200, true, Some("Song deleted"), NoData)
            && a.docs == docs - {del.path[1]}
            && AppOutcome(get, env2, a.docs, a.records).reply == Success(200, OneSong(None))
  {
    AdminDelete(del, env1, docs, records);
    ReadById(get, env2, docs - {del.path[1]}, records);
  }

  /** One request through the application, on the live collections: its outcome is `AppOutcome`. */
  method Handle(req: Request, env: Env, db: SongCollection, reg: Registry) returns (reply: Reply)
    requires db.Valid()
    modifies db, reg
    ensures db.Valid()
    ensures Outcome(reply, db.docs, reg.records) == AppOutcome(req, env, old(db.docs), old(reg.records))
    ensures AllConform(old(db.docs)) ==> AllConform(db.docs)
    ensures db.docs != old(db.docs) ==>
              AdminAccess(req.authorization, old(reg.records), env.lookupFault, env.verify)
    ensures reg.records != old(reg.records) ==> Resolve(AppRoutes, req.verb, req.path) == Some(9)
    ensures Resolve(AppRoutes, req.verb, req.path).None? ==> reply == NotFound
  {
    OnlyAdminsChangeSongs(req, env, db.docs, reg.records);
    OnlyLogoutRevokes(req, env, db.docs, reg.records);
    var r := Resolve(AppRoutes, req.verb, req.path);
    if r.None? {
      return NotFound;
    }
    var route := AppRoutes[r.value];
    ServerCopiesNeverRun(req.verb, req.path);
    var gate := RunGuards(route.guards, req.authorization, reg.records, env.lookupFault, env.verify, None);
    if gate.Reject? {
      return gate.reply;
    }
    reply := Dispatch(route.handler, req, env, db, reg);
  }

  /** The handler of the chosen registration, once its guards have passed: it does what
      `HandlerOutcome` says. */
  method Dispatch(h: Handler, req: Request, env: Env, db: SongCollection, reg: Registry) returns (reply: Reply)
    requires db.Valid() && !IsServerCopy(h)
    modifies db, reg
    ensures db.Valid()
    ensures Outcome(reply, db.docs, reg.records) == HandlerOutcome(h, req, env, old(db.docs), old(reg.records))
  {
    match h {
      case ListSongs =>
        reply := SongRoutes.ListSongs(db.docs, env.storeFault);
      case SearchSongs =>
        reply := SongRoutes.SearchSongs(db.docs, req.query, env.matches, env.storeFault);
      case GetSong =>
        reply := SongRoutes.GetSong(db.docs, IdParam(req.path), env.storeFault);
      case CreateSong =>
        reply := SongRoutes.PostSong(db, req.song, env.newId, env.now, env.storeFault);
      case UpdateSong =>
        reply := SongRoutes.PutSong(db, IdParam(req.path), req.song, env.now, env.storeFault);
      case DeleteSong =>
        reply := SongRoutes.DeleteSong(db, IdParam(req.path), env.storeFault);
      case LoginPage =>
        reply := File("frontend/login.html");
      case IndexPage =>
        reply := File("frontend/index.html");
      case Login =>
        reply := UserRoutes.Login(req.username, req.password, env.users, env.passwordMatches, env.sign, env.storeFault);
      case Logout =>
        reply := UserRoutes.Logout(reg, req.authorization, env.decode, env.now, env.storeFault);
      case AdminPanel =>
        reply := Envelope(200, true, Some("Welcome to admin panel"), NoData);
      case Check =>
        reply := Text("Server is on...");
      case FrontendIndex =>
        reply := File("frontend-react/build/index.html");
      case _ =>
        assert false;
    }
  }
}
