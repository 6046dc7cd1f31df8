/**
 * TokenUtils: the Authorization header's bearer token, and the chains that turn it into the
 * caller's user id, role and producer id. Every step that finds nothing answers null, and
 * so does every exception on the way. Reading the e-mail out of a signed token is a
 * parameter: a partial function from token to e-mail.
 */
module TokenUtils {
  import opened Wrappers
  import opened Database

  const BearerPrefix: string := "Bearer "

  /** extractTokenFromRequest: the text after "Bearer " (case and the one space as written), or null. */
  function ExtractToken(header: Option<string>): (token: Option<string>)
    ensures token.Some? <==> header.Some? && BearerPrefix <= header.value
    ensures token.Some? ==> header.value == BearerPrefix + token.value
  {
    if header.Some? && BearerPrefix <= header.value then
      assert header.value == header.value[..7] + header.value[7..];
      Some(header.value[7..])
    else None
  }

  /** The token a header built from a prefix and a token gives back. */
  lemma ExtractTokenOfBearer(token: string)
    ensures ExtractToken(Some(BearerPrefix + token)) == Some(token)
  {
    assert BearerPrefix <= BearerPrefix + token;
    assert (BearerPrefix + token)[7..] == token;
  }

  /** What a repository finder returning an Optional does: nothing, the one row, or a throw for two. */
  datatype Lookup = NotFound | Found(id: int) | Ambiguous

  predicate HasEmail(users: map<int, User>, email: string, id: int)
  {
    id in users && users[id].email == email
  }

  /** findByEmail. */
  function UserByEmail(users: map<int, User>, email: string): (l: Lookup)
    ensures l.Found? ==> HasEmail(users, email, l.id) && forall other :: HasEmail(users, email, other) ==> other == l.id
    ensures l.NotFound? <==> forall id :: !HasEmail(users, email, id)
    ensures l.Ambiguous? <==> exists a, b :: HasEmail(users, email, a) && HasEmail(users, email, b) && a != b
  {
    if exists a, b :: a in users && b in users && HasEmail(users, email, a) && HasEmail(users, email, b) && a != b then
      Ambiguous
    else if exists id :: id in users && HasEmail(users, email, id) then
      var id :| id in users && HasEmail(users, email, id);
      Found(id)
    else NotFound
  }

  predicate ProducerOfUser(producers: map<int, Producer>, userId: int, id: int)
  {
    id in producers && producers[id].userId == Some(userId)
  }

  /** findByUserId over the producers. */
  function ProducerByUser(producers: map<int, Producer>, userId: int): (l: Lookup)
    ensures l.Found? ==> ProducerOfUser(producers, userId, l.id) && forall other :: ProducerOfUser(producers, userId, other) ==> other == l.id
    ensures l.NotFound? <==> forall id :: !ProducerOfUser(producers, userId, id)
    ensures l.Ambiguous? <==>
              exists a, b :: ProducerOfUser(producers, userId, a) && ProducerOfUser(producers, userId, b) && a != b
  {
    if exists a, b :: a in producers && b in producers && ProducerOfUser(producers, userId, a) &&
                      ProducerOfUser(producers, userId, b) && a != b then
      Ambiguous
    else if exists id :: id in producers && ProducerOfUser(producers, userId, id) then
      var id :| id in producers && ProducerOfUser(producers, userId, id);
      Found(id)
    else NotFound
  }

  /** The user a request names: token, e-mail, then the one user with that e-mail; null on any failure. */
  function RequestUser(header: Option<string>, emailOf: string -> Option<string>, users: map<int, User>): Option<int>
  {
    match ExtractToken(header)
    case None => None
    case Some(token) =>
      match emailOf(token)
      case None => None
      case Some(email) =>
        match UserByEmail(users, email)
        case Found(id) => Some(id)
        case _ => None
  }

  /**
   * getUserIdFromRequest: an id only for a bearer token whose e-mail belongs to a user, and
   * always the id of the one user with that e-mail when there is exactly one. Two holders of
   * one e-mail make findByEmail throw, which answers null; the unique e-mail column of the
   * users table keeps that case out of a real database.
   */
  function UserIdFromRequest(header: Option<string>, emailOf: string -> Option<string>, users: map<int, User>): (r: Option<int>)
    ensures r.Some? ==> r.value in users
    ensures r.Some? ==> ExtractToken(header).Some? && emailOf(ExtractToken(header).value) == Some(users[r.value].email)
    ensures ExtractToken(header).Some? && emailOf(ExtractToken(header).value).Some? ==>
              var email := emailOf(ExtractToken(header).value).value;
              forall id :: HasEmail(users, email, id) && (forall other :: HasEmail(users, email, other) ==> other == id) ==>
                r == Some(id)
    ensures ExtractToken(header).Some? && emailOf(ExtractToken(header).value).Some? ==>
              var email := emailOf(ExtractToken(header).value).value;
              (exists a, b :: HasEmail(users, email, a) && HasEmail(users, email, b) && a != b) ==> r.None?
  {
    RequestUser(header, emailOf, users)
  }

  /** getRoleFromRequest: the user's role name; a user without a role throws, which answers null. */
  function RoleFromRequest(header: Option<string>, emailOf: string -> Option<string>, users: map<int, User>): (r: Option<string>)
    ensures r.Some? <==> UserIdFromRequest(header, emailOf, users).Some? && users[UserIdFromRequest(header, emailOf, users).value].role.Some?
    ensures r.Some? ==> r == users[UserIdFromRequest(header, emailOf, users).value].role
  {
    match RequestUser(header, emailOf, users)
    case None => None
    case Some(id) => users[id].role
  }

  /**
   * getProducerIdFromRequest: the producer of the request's user, only when that user's role
   * is ROLE_PRODUCER; null otherwise, and null for a user with two producers.
   */
  function ProducerIdFromRequest(header: Option<string>, emailOf: string -> Option<string>,
                                 users: map<int, User>, producers: map<int, Producer>): (r: Option<int>)
    ensures r.Some? ==> var userId := UserIdFromRequest(header, emailOf, users);
                        userId.Some? && users[userId.value].role == Some("ROLE_PRODUCER") &&
                        r.value in producers && producers[r.value].userId == userId
  {
    match RequestUser(header, emailOf, users)
    case None => None
    case Some(userId) =>
      if users[userId].role != Some("ROLE_PRODUCER") then None
      else
        match ProducerByUser(producers, userId)
        case Found(id) => Some(id)
        case _ => None
  }

  /** With no bearer token every helper answers null. */
  lemma NoTokenNoIdentity(header: Option<string>, emailOf: string -> Option<string>,
                          users: map<int, User>, producers: map<int, Producer>)
    requires header.None? || !(BearerPrefix <= header.value)
    ensures UserIdFromRequest(header, emailOf, users).None?
    ensures RoleFromRequest(header, emailOf, users).None?
    ensures ProducerIdFromRequest(header, emailOf, users, producers).None?
  {
  }

  /**
   * A producer id comes only from a request whose user resolves and has the role
   * ROLE_PRODUCER, and it names that user's one producer; conversely such a user with
   * exactly one producer always gets it.
   */
  lemma ProducerIdIff(header: Option<string>, emailOf: string -> Option<string>,
                      users: map<int, User>, producers: map<int, Producer>, producerId: int)
    ensures ProducerIdFromRequest(header, emailOf, users, producers) == Some(producerId) <==>
      var userId := UserIdFromRequest(header, emailOf, users);
      RoleFromRequest(header, emailOf, users) == Some("ROLE_PRODUCER") &&
      userId.Some? && ProducerByUser(producers, userId.value) == Found(producerId)
  {
  }

  /** A producer id implies a producer row owned by the request's user. */
  lemma ProducerIdOwnedByRequestUser(header: Option<string>, emailOf: string -> Option<string>,
                                     users: map<int, User>, producers: map<int, Producer>)
    requires ProducerIdFromRequest(header, emailOf, users, producers).Some?
    ensures var producerId := ProducerIdFromRequest(header, emailOf, users, producers).value;
            var userId := UserIdFromRequest(header, emailOf, users);
            userId.Some? && producerId in producers && producers[producerId].userId == userId
  {
    ProducerIdIff(header, emailOf, users, producers, ProducerIdFromRequest(header, emailOf, users, producers).value);
  }
}
