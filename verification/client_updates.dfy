/** The single-row UPDATE statements the routes send, as data: the SET list
    with its positional parameters `$k` and `NOW()`, and the WHERE key
    parameter; and what PostgreSQL does with such a statement and a
    parameter array. */
module ClientUpdates {
  import opened Schema

  /** The columns of `client` that a SET list may name. */
  datatype Column =
    | BusinessName | AddressStreet | AddressCity | AddressState | AddressZip
    | Website | Phone | HoursOfOperation | MicromarketLocation
    | NeighborhoodInfo | DemographicsColumn | NumberOfPeople | TargetAgeGroup
    | Industry | Pictures | Dimensions | WugsVisit | Contract | LastActive

  /** A bound parameter: a scalar from the request body, an array of URLs,
      or a row key. */
  datatype Param = ScalarParam(field: Field) | ArrayParam(urls: seq<Url>) | KeyParam(key: int)

  /** The right-hand side of one assignment: `$k`, `NOW()`, or
      `<column> || $k` (array concatenation onto the stored value). */
  datatype Rhs = Placeholder(index: nat) | Now | AppendPlaceholder(index: nat)

  /** `UPDATE client SET <column = rhs, ...> WHERE id = $<keyParam>`; a SET
      list names a column at most once, so it is a map. `SyntaxError` is a
      statement text the SQL parser rejects. */
  datatype ClientUpdate = Update(assignments: map<Column, Rhs>, keyParam: nat) | SyntaxError

  predicate IsUrlList(col: Column)
  {
    col == Pictures || col == Contract
  }

  /** The parameter `$k`, when the array has one. */
  predicate HasParam(params: seq<Param>, k: nat)
  {
    1 <= k <= |params|
  }

  /** Whether assigning `rhs` to `col` is type-correct. */
  predicate Fits(col: Column, rhs: Rhs, params: seq<Param>)
  {
    match rhs
    case Now => col == LastActive
    case Placeholder(k) =>
      col != LastActive && HasParam(params, k) &&
      (if IsUrlList(col) then params[k - 1].ArrayParam? else params[k - 1].ScalarParam?)
    case AppendPlaceholder(k) =>
      IsUrlList(col) && HasParam(params, k) && params[k - 1].ArrayParam?
  }

  predicate Typed(assignments: map<Column, Rhs>, params: seq<Param>)
  {
    forall col | col in assignments :: Fits(col, assignments[col], params)
  }

  /** What PostgreSQL accepts: a parsed, type-correct SET list and a row key
      as the WHERE parameter. */
  predicate Accepted(u: ClientUpdate, params: seq<Param>)
  {
    && u.Update?
    && Typed(u.assignments, params)
    && HasParam(params, u.keyParam)
    && params[u.keyParam - 1].KeyParam?
  }

  /** The new value of a scalar column. */
  function FieldAfter(m: map<Column, Rhs>, params: seq<Param>, col: Column, cur: Field): Field
    requires Typed(m, params)
    requires !IsUrlList(col) && col != LastActive
  {
    if col in m then params[m[col].index - 1].field else cur
  }

  /** The new value of an attachment list. */
  function UrlsAfter(m: map<Column, Rhs>, params: seq<Param>, col: Column, cur: seq<Url>): seq<Url>
    requires Typed(m, params)
    requires IsUrlList(col)
  {
    if col !in m then cur
    else if m[col].AppendPlaceholder? then cur + params[m[col].index - 1].urls
    else params[m[col].index - 1].urls
  }

  /** The new `last_active`. */
  function TimeAfter(m: map<Column, Rhs>, cur: Timestamp, now: Timestamp): Timestamp
  {
    if LastActive in m then now else cur
  }

  /** The row after the SET list: each named column takes its assigned
      value, every other column keeps its own. */
  function Row(c: Client, m: map<Column, Rhs>, params: seq<Param>, now: Timestamp): Client
    requires Typed(m, params)
  {
    Client(
      businessName := FieldAfter(m, params, BusinessName, c.businessName),
      addressStreet := FieldAfter(m, params, AddressStreet, c.addressStreet),
      addressCity := FieldAfter(m, params, AddressCity, c.addressCity),
      addressState := FieldAfter(m, params, AddressState, c.addressState),
      addressZip := FieldAfter(m, params, AddressZip, c.addressZip),
      website := FieldAfter(m, params, Website, c.website),
      phone := FieldAfter(m, params, Phone, c.phone),
      hoursOfOperation := FieldAfter(m, params, HoursOfOperation, c.hoursOfOperation),
      micromarketLocation := FieldAfter(m, params, MicromarketLocation, c.micromarketLocation),
      neighborhoodInfo := FieldAfter(m, params, NeighborhoodInfo, c.neighborhoodInfo),
      demographics := FieldAfter(m, params, DemographicsColumn, c.demographics),
      numberOfPeople := FieldAfter(m, params, NumberOfPeople, c.numberOfPeople),
      targetAgeGroup := FieldAfter(m, params, TargetAgeGroup, c.targetAgeGroup),
      industry := FieldAfter(m, params, Industry, c.industry),
      pictures := UrlsAfter(m, params, Pictures, c.pictures),
      dimensions := FieldAfter(m, params, Dimensions, c.dimensions),
      wugsVisit := FieldAfter(m, params, WugsVisit, c.wugsVisit),
      contract := UrlsAfter(m, params, Contract, c.contract),
      lastActive := TimeAfter(m, c.lastActive, now),
      managerId := c.managerId,
      statusId := c.statusId)
  }

  /** Running the statement: None when PostgreSQL rejects it; otherwise the
      table with the keyed row rewritten, or unchanged when no row has that
      key (zero rows updated is not an error). */
  function Exec(clients: map<ClientId, Client>, u: ClientUpdate, params: seq<Param>, now: Timestamp)
    : (r: Option<map<ClientId, Client>>)
    ensures r.Some? <==> Accepted(u, params)
    ensures r.Some? ==> r.value.Keys == clients.Keys
    ensures r.Some? ==> forall id | id in clients && id != params[u.keyParam - 1].key :: r.value[id] == clients[id]
  {
    if !Accepted(u, params) then None
    else
      var id := params[u.keyParam - 1].key;
      Some(if id in clients then clients[id := Row(clients[id], u.assignments, params, now)] else clients)
  }

  // ---------------------------------------------------------------------
  // The `"user"` table

  datatype UserColumn = FirstName | LastName | Username

  /** `UPDATE "user" SET <column = $k, ...> WHERE id = $<keyParam>`. */
  datatype UserUpdate = UserUpdate(assignments: map<UserColumn, nat>, keyParam: nat)

  /** Every `$k` of the SET list is a scalar parameter the array has. */
  predicate UserTyped(m: map<UserColumn, nat>, params: seq<Param>)
  {
    forall col | col in m :: HasParam(params, m[col]) && params[m[col] - 1].ScalarParam?
  }

  predicate UserAccepted(u: UserUpdate, params: seq<Param>)
  {
    && UserTyped(u.assignments, params)
    && HasParam(params, u.keyParam)
    && params[u.keyParam - 1].KeyParam?
  }

  function UserFieldAfter(m: map<UserColumn, nat>, params: seq<Param>, col: UserColumn, cur: Field): Field
    requires UserTyped(m, params)
  {
    if col in m then params[m[col] - 1].field else cur
  }

  function ExecUser(users: map<UserId, User>, u: UserUpdate, params: seq<Param>): (r: Option<map<UserId, User>>)
    ensures r.Some? <==> UserAccepted(u, params)
    ensures r.Some? ==> r.value.Keys == users.Keys
    ensures r.Some? ==> forall id | id in users && id != params[u.keyParam - 1].key :: r.value[id] == users[id]
  {
    if !UserAccepted(u, params) then None
    else
      var id := params[u.keyParam - 1].key;
      if id !in users then Some(users)
      else
        var was := users[id];
        Some(users[id := User(
          UserFieldAfter(u.assignments, params, FirstName, was.firstName),
          UserFieldAfter(u.assignments, params, LastName, was.lastName),
          UserFieldAfter(u.assignments, params, Username, was.username))])
  }
}
