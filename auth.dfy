/**
 * auth.go: where a user's Spotify token lives in Firestore, how it is read
 * and written, the authentication middleware that puts a Spotify client for
 * the session into the `kaszka` cache, and `clientMagic`, through which
 * every endpoint obtains that client.
 *
 * Clock readings are nanoseconds. The OAuth exchange itself is outside the
 * model: the token that `spotifyClient.Token()` hands back after a refresh
 * is a parameter, as is the outcome of every Firestore write and the
 * authorisation URL the OAuth configuration builds for a path.
 */
module Auth {
  import opened Wrappers
  import GoStrings
  import GoCache
  import Firestore
  import Utils
  import Middleware

  /** oauth2.Token, with `Expiry` as a clock reading. */
  datatype Token = Token(accessToken: string, tokenType: string, refreshToken: string, expiry: int)

  /** A spotify.Client built by `auth.NewClient(tok)`: it holds the token it was made from. */
  datatype Client = Client(token: Token)

  /** firestoreToken: whose token, for which route group, and the token itself. */
  datatype FirestoreToken = FirestoreToken(user: string, country: string, timezone: string, path: string, token: Token)

  /** The three session values the middleware reads; `None` is a nil value. */
  datatype Session = Session(user: Option<string>, authPath: Option<string>, uuid: Option<string>)

  /**
   * What a request goes through: a redirect with abort, passing on to the
   * handler, or a run-time panic (a failed type assertion on a nil session
   * value, or a nil token dereferenced).
   */
  datatype Outcome = Redirected(status: int, location: string) | Passed | Panicked

  /** A token this close to its expiry (4m30s) is refreshed. */
  const RefreshMargin: int := 270 * Utils.Second

  /** The instant a missing `Expiry` field decodes to: time.Time's zero value, before any clock reading. */
  const ZeroTime: int := 0

  // ---------------------------------------------------------------------
  // Document paths

  /**
   * "users/<user>/tokens<path>": the token document for a user and route
   * group. It lies under the user's profile document, and the route group
   * is all of what follows "/tokens".
   */
  function TokenPath(user: string, path: string): (r: string)
    ensures GoStrings.HasPrefix(r, UserPath(user) + "/tokens")
    ensures |r| == |UserPath(user)| + 7 + |path| && r[|UserPath(user)| + 7..] == path
  {
    "users/" + user + "/tokens" + path
  }

  /** "users/<user>": the user's profile document, `user` in the "users" collection. */
  function UserPath(user: string): (r: string)
    ensures GoStrings.HasPrefix(r, "users/") && r[6..] == user
  {
    "users/" + user
  }

  /** In a token path the first '/' after "users/" ends the user ID. */
  lemma TokenPathUser(user: string, path: string)
    requires '/' !in user
    ensures var rest := TokenPath(user, path)[6..];
      rest == user + "/tokens" + path && GoStrings.Index(rest, "/") == Some(|user|)
  {
    assert TokenPath(user, path)[6..] == user + ("/tokens" + path);
    GoStrings.IndexOfChar(user, '/', "/tokens" + path);
  }

  /**
   * Distinct (user, route group) pairs get distinct token documents, as long
   * as user IDs contain no '/' (Spotify IDs are alphanumeric).
   */
  lemma TokenPathInjective(u1: string, p1: string, u2: string, p2: string)
    requires '/' !in u1 && '/' !in u2
    ensures TokenPath(u1, p1) == TokenPath(u2, p2) <==> u1 == u2 && p1 == p2
  {
    if TokenPath(u1, p1) == TokenPath(u2, p2) {
      TokenPathUser(u1, p1);
      TokenPathUser(u2, p2);
      var rest := TokenPath(u1, p1)[6..];
      assert |u1| == |u2|;
      assert u1 == rest[..|u1|];
      assert u2 == rest[..|u2|];
      assert p1 == rest[|u1| + 7..];
      assert p2 == rest[|u2| + 7..];
    }
  }

  /** A user's token document is never their profile document. */
  lemma TokenPathNotUserPath(user: string, path: string)
    ensures TokenPath(user, path) != UserPath(user)
  {
  }

  // ---------------------------------------------------------------------
  // Token documents

  /** The fields an oauth2.Token is stored as. */
  function TokenFields(t: Token): Firestore.Doc {
    map[
      "AccessToken" := Firestore.Str(t.accessToken),
      "Expiry" := Firestore.Timestamp(t.expiry),
      "RefreshToken" := Firestore.Str(t.refreshToken),
      "TokenType" := Firestore.Str(t.tokenType)
    ]
  }

  /** A string field, or "" when it is missing or not a string. */
  function StrField(doc: Firestore.Doc, f: string): string {
    if f in doc && doc[f].Str? then doc[f].s else ""
  }

  /** `dsnap.DataTo(tok)`: each token field read back, a zero value where none is stored. */
  function DecodeToken(doc: Firestore.Doc): (t: Token)
    ensures "AccessToken" in doc && doc["AccessToken"].Str? ==> t.accessToken == doc["AccessToken"].s
    ensures "TokenType" in doc && doc["TokenType"].Str? ==> t.tokenType == doc["TokenType"].s
    ensures "RefreshToken" in doc && doc["RefreshToken"].Str? ==> t.refreshToken == doc["RefreshToken"].s
    ensures "Expiry" in doc && doc["Expiry"].Timestamp? ==> t.expiry == doc["Expiry"].t
    ensures !("AccessToken" in doc && doc["AccessToken"].Str?) ==> t.accessToken == ""
    ensures !("TokenType" in doc && doc["TokenType"].Str?) ==> t.tokenType == ""
    ensures !("RefreshToken" in doc && doc["RefreshToken"].Str?) ==> t.refreshToken == ""
    ensures !("Expiry" in doc && doc["Expiry"].Timestamp?) ==> t.expiry == ZeroTime
    ensures doc == map[] ==> t == Token("", "", "", ZeroTime)
  {
    Token(
      StrField(doc, "AccessToken"),
      StrField(doc, "TokenType"),
      StrField(doc, "RefreshToken"),
      if "Expiry" in doc && doc["Expiry"].Timestamp? then doc["Expiry"].t else ZeroTime)
  }

  /** A stored token reads back as itself. */
  lemma DecodeTokenFields(t: Token)
    ensures DecodeToken(TokenFields(t)) == t
  {
  }

  /** Merging a token's fields into any document makes the document read back as that token. */
  lemma DecodeAfterMerge(doc: Firestore.Doc, t: Token)
    ensures DecodeToken(Firestore.Merge(doc, TokenFields(t))) == t
  {
  }

  /** The profile fields saveTokenToDB merges into the user's document. */
  function ProfileFields(t: FirestoreToken): Firestore.Doc {
    map["userID" := Firestore.Str(t.user), "country" := Firestore.Str(t.country), "timezone" := Firestore.Str(t.timezone)]
  }

  // ---------------------------------------------------------------------
  // getTokenFromDB, saveTokenToDB, updateTokenInDB

  /** getTokenFromDB: the decoded token document of the user and route group, if there is one. */
  method GetTokenFromDB(db: Firestore.Store, t: FirestoreToken) returns (tok: Option<Token>)
    ensures tok.Some? <==> TokenPath(t.user, t.path) in db.docs
    ensures tok.Some? ==> tok.value == DecodeToken(db.docs[TokenPath(t.user, t.path)])
  {
    var d := db.Get(TokenPath(t.user, t.path));
    tok := if d.Some? then Some(DecodeToken(d.value)) else None;
  }

  /**
   * The documents after saveTokenToDB: the token document replaced by the
   * token, then the profile fields merged into the user's document; a
   * write the backend refuses leaves its document as it was.
   */
  function SavedDocs(docs: map<string, Firestore.Doc>, t: FirestoreToken,
                     setFailure: Option<string>, mergeFailure: Option<string>): map<string, Firestore.Doc>
  {
    var afterSet := if setFailure.None? then docs[TokenPath(t.user, t.path) := TokenFields(t.token)] else docs;
    var up := UserPath(t.user);
    if mergeFailure.None? then afterSet[up := Firestore.Merge(Firestore.DocAt(afterSet, up), ProfileFields(t))]
    else afterSet
  }

  /**
   * saveTokenToDB: both writes are attempted; only the second one's error
   * is reported, because the first one's error is overwritten unread.
   */
  method SaveTokenToDB(db: Firestore.Store, t: FirestoreToken,
                       setFailure: Option<string>, mergeFailure: Option<string>) returns (err: Option<string>)
    modifies db
    ensures err == mergeFailure
    ensures db.docs == SavedDocs(old(db.docs), t, setFailure, mergeFailure)
  {
    err := db.Set(TokenPath(t.user, t.path), TokenFields(t.token), setFailure);
    err := db.SetMergeAll(UserPath(t.user), ProfileFields(t), mergeFailure);
  }

  /**
   * A saved token is what getTokenFromDB reads next, whatever became of the
   * profile merge; and a successful merge leaves the profile holding the
   * user's ID, country and timezone.
   */
  lemma SaveThenGet(docs: map<string, Firestore.Doc>, t: FirestoreToken,
                    setFailure: Option<string>, mergeFailure: Option<string>)
    requires setFailure.None?
    ensures var saved := SavedDocs(docs, t, setFailure, mergeFailure);
      TokenPath(t.user, t.path) in saved && DecodeToken(saved[TokenPath(t.user, t.path)]) == t.token
    ensures mergeFailure.None? ==>
      var profile := SavedDocs(docs, t, setFailure, mergeFailure)[UserPath(t.user)];
      profile["userID"] == Firestore.Str(t.user) && profile["country"] == Firestore.Str(t.country)
      && profile["timezone"] == Firestore.Str(t.timezone)
  {
    TokenPathNotUserPath(t.user, t.path);
    DecodeTokenFields(t.token);
  }

  /** updateTokenInDB: merges the token's four fields into its document. */
  method UpdateTokenInDB(db: Firestore.Store, t: FirestoreToken, failure: Option<string>) returns (err: Option<string>)
    modifies db
    ensures err == failure
    ensures var tp := TokenPath(t.user, t.path);
      db.docs == if failure.None? then old(db.docs)[tp := Firestore.Merge(Firestore.DocAt(old(db.docs), tp), TokenFields(t.token))]
                 else old(db.docs)
  {
    err := db.SetMergeAll(TokenPath(t.user, t.path), TokenFields(t.token), failure);
  }

  /** After a successful update the token document reads back as the new token, whatever it held before. */
  lemma UpdateThenGet(docs: map<string, Firestore.Doc>, t: FirestoreToken)
    ensures var tp := TokenPath(t.user, t.path);
      DecodeToken(docs[tp := Firestore.Merge(Firestore.DocAt(docs, tp), TokenFields(t.token))][tp]) == t.token
  {
    DecodeAfterMerge(Firestore.DocAt(docs, TokenPath(t.user, t.path)), t.token);
  }

  // ---------------------------------------------------------------------
  // AuthenticationRequired and clientMagic

  /** The token expires within the refresh margin of `now` (or has already expired). */
  predicate NeedsRefresh(expiry: int, now: int): (b: bool)
    ensures expiry <= now ==> b
    ensures b <==> expiry < now + RefreshMargin
  {
    expiry - now < RefreshMargin
  }

  /** The session carries all three values the middleware casts to strings. */
  predicate Complete(session: Session) {
    session.user.Some? && session.authPath.Some? && session.uuid.Some?
  }

  /**
   * AuthenticationRequired(authPath), applied to one request at `now`:
   *  - no user in the session: redirect (303) to the authorisation URL for
   *    `authPath`, abort, and change nothing;
   *  - a user but no `authPath` or `uuid`: the string cast panics;
   *  - a live client cached under the session's uuid: pass, change nothing;
   *  - otherwise the token is read from Firestore (its absence is a nil
   *    dereference), a client for it is cached with the default expiry,
   *    and when the token is within 4m30s of expiring the refreshed token
   *    is merged back into its document.
   * A request that passes leaves a live client cached for its session.
   */
  method AuthenticationRequired(kaszka: GoCache.TtlCache<Client>, db: Firestore.Store, authPath: string,
                                session: Session, now: int, authURL: string -> string,
                                refreshed: Token, updateFailure: Option<string>) returns (outcome: Outcome)
    modifies kaszka, db
    ensures session.user.None? ==>
      outcome == Redirected(Middleware.SeeOther, authURL(authPath))
    ensures session.user.Some? && !Complete(session) ==> outcome == Panicked
    ensures (!Complete(session) || old(kaszka.Live(session.uuid.value, now))
             || TokenPath(session.user.value, authPath) !in old(db.docs)) ==>
      kaszka.items == old(kaszka.items) && db.docs == old(db.docs)
    ensures Complete(session) && old(kaszka.Live(session.uuid.value, now)) ==> outcome == Passed
    ensures (Complete(session) && !old(kaszka.Live(session.uuid.value, now))
             && TokenPath(session.user.value, authPath) !in old(db.docs)) ==> outcome == Panicked
    ensures (Complete(session) && !old(kaszka.Live(session.uuid.value, now))
             && TokenPath(session.user.value, authPath) in old(db.docs)) ==>
      var tp := TokenPath(session.user.value, authPath);
      var tok := DecodeToken(old(db.docs)[tp]);
      outcome == Passed
      && kaszka.items == old(kaszka.items)[session.uuid.value := GoCache.Item(Client(tok), kaszka.ExpiryAt(GoCache.DefaultExpiration, now))]
      && db.docs == if NeedsRefresh(tok.expiry, now) && updateFailure.None?
                    then old(db.docs)[tp := Firestore.Merge(old(db.docs)[tp], TokenFields(refreshed))]
                    else old(db.docs)
    ensures outcome == Passed ==> kaszka.Live(session.uuid.value, now)
  {
    if session.user.None? {
      return Redirected(Middleware.SeeOther, authURL(authPath));
    }
    if session.authPath.None? || session.uuid.None? {
      return Panicked;
    }
    var user, uuid := session.user.value, session.uuid.value;
    var cached := kaszka.Get(uuid, now);
    if cached.Some? {
      return Passed;
    }
    var newTok := FirestoreToken(user, "", "", authPath, Token("", "", "", ZeroTime));
    var tok := GetTokenFromDB(db, newTok);
    if tok.None? {
      return Panicked;
    }
    kaszka.Set(uuid, Client(tok.value), GoCache.DefaultExpiration, now);
    GoCache.StoredIsLive(old(kaszka.items), uuid, Client(tok.value), GoCache.DefaultExpiration, kaszka.defaultExpiration, now);
    if NeedsRefresh(tok.value.expiry, now) {
      newTok := newTok.(token := refreshed);
      var _ := UpdateTokenInDB(db, newTok, updateFailure);
    }
    return Passed;
  }

  /**
   * clientMagic, for a session the middleware has let through: the cached
   * client, whose entry is stored again with a fresh default expiry; or,
   * when none is cached, a new client for the token in Firestore, added to
   * the cache; or no client when Firestore has no token. Whatever client
   * it returns is then live in the cache.
   */
  method ClientMagic(kaszka: GoCache.TtlCache<Client>, db: Firestore.Store, session: Session, now: int)
    returns (client: Option<Client>)
    requires Complete(session)
    modifies kaszka
    ensures old(kaszka.Live(session.uuid.value, now)) ==>
      client == GoCache.Lookup(old(kaszka.items), session.uuid.value, now)
    ensures var tp := TokenPath(session.user.value, session.authPath.value);
      !old(kaszka.Live(session.uuid.value, now)) ==>
        client == if tp in db.docs then Some(Client(DecodeToken(db.docs[tp]))) else None
    ensures kaszka.items == if client.Some?
                            then old(kaszka.items)[session.uuid.value := GoCache.Item(client.value, kaszka.ExpiryAt(GoCache.DefaultExpiration, now))]
                            else old(kaszka.items)
    ensures client.Some? ==> GoCache.Lookup(kaszka.items, session.uuid.value, now) == client
  {
    var uuid := session.uuid.value;
    var cached := kaszka.Get(uuid, now);
    if cached.Some? {
      kaszka.SetDefault(uuid, cached.value, now);
      GoCache.StoredIsLive(old(kaszka.items), uuid, cached.value, GoCache.DefaultExpiration, kaszka.defaultExpiration, now);
      return cached;
    }
    var newTok := FirestoreToken(session.user.value, "", "", session.authPath.value, Token("", "", "", ZeroTime));
    var tok := GetTokenFromDB(db, newTok);
    if tok.None? {
      return None;
    }
    var newClient := Client(tok.value);
    var rejected := kaszka.Add(uuid, newClient, GoCache.DefaultExpiration, now);
    GoCache.StoredIsLive(old(kaszka.items), uuid, newClient, GoCache.DefaultExpiration, kaszka.defaultExpiration, now);
    return Some(newClient);
  }
}
