/** The request bodies of the onboarding routes, the parameter arrays the
    handlers build from them, the UPDATE statements they send (as written,
    and corrected where the text does not parse), and, for each statement,
    a direct record update saying which columns it is meant to write,
    proved equal to what the statement does. */
module OnboardingSql {
  import opened Schema
  import opened ClientUpdates

  // ---------------------------------------------------------------------
  // Request bodies: an absent field arrives as Null

  datatype LocationBody = LocationBody(
    businessName: Field,
    addressStreet: Field,
    addressCity: Field,
    addressState: Field,
    addressZip: Field,
    website: Field,
    phone: Field,
    hoursOfOperation: Field,
    micromarketLocation: Field)

  datatype DemographicsBody = DemographicsBody(
    numberOfPeople: Field,
    demographics: Field,
    neighborhoodInfo: Field,
    industry: Field,
    ageGroup: Field)

  datatype AdditionalInfoBody = AdditionalInfoBody(dimensions: Field, pictures: seq<Url>, wugsVisit: Field)

  datatype ContactBody = ContactBody(
    phone: Field,
    firstName: Field,
    lastName: Field,
    username: Field,
    userId: UserId)

  // ---------------------------------------------------------------------
  // Parameter arrays, in the order the handlers build them

  /** Nine scalars from the body, `$1` to `$9`, then the client id as `$10`. */
  function LocationParams(b: LocationBody, clientId: ClientId): (r: seq<Param>)
    ensures |r| == 10 && r[9] == KeyParam(clientId)
    ensures forall i | 0 <= i < 9 :: r[i].ScalarParam?
  {
    [ScalarParam(b.businessName), ScalarParam(b.addressStreet), ScalarParam(b.addressCity),
     ScalarParam(b.addressState), ScalarParam(b.addressZip), ScalarParam(b.website),
     ScalarParam(b.phone), ScalarParam(b.hoursOfOperation), ScalarParam(b.micromarketLocation),
     KeyParam(clientId)]
  }

  function DemographicsParams(b: DemographicsBody, clientId: ClientId): (r: seq<Param>)
    ensures |r| == 6 && r[5] == KeyParam(clientId)
    ensures r[4] == ScalarParam(b.ageGroup)
    ensures forall i | 0 <= i < 5 :: r[i].ScalarParam?
  {
    [ScalarParam(b.numberOfPeople), ScalarParam(b.demographics), ScalarParam(b.neighborhoodInfo),
     ScalarParam(b.industry), ScalarParam(b.ageGroup), KeyParam(clientId)]
  }

  function AdditionalInfoParams(b: AdditionalInfoBody, clientId: ClientId): (r: seq<Param>)
    ensures |r| == 4 && r[3] == KeyParam(clientId)
    ensures r[1] == ArrayParam(b.pictures) && r[0].ScalarParam? && r[2].ScalarParam?
  {
    [ScalarParam(b.dimensions), ArrayParam(b.pictures), ScalarParam(b.wugsVisit), KeyParam(clientId)]
  }

  function ContactClientParams(b: ContactBody, clientId: ClientId): (r: seq<Param>)
    ensures |r| == 2 && r[0] == ScalarParam(b.phone) && r[1] == KeyParam(clientId)
  {
    [ScalarParam(b.phone), KeyParam(clientId)]
  }

  function ContactUserParams(b: ContactBody): (r: seq<Param>)
    ensures |r| == 4 && r[3] == KeyParam(b.userId)
    ensures forall i | 0 <= i < 3 :: r[i].ScalarParam?
  {
    [ScalarParam(b.firstName), ScalarParam(b.lastName), ScalarParam(b.username), KeyParam(b.userId)]
  }

  function AttachmentParams(urls: seq<Url>, clientId: ClientId): (r: seq<Param>)
    ensures |r| == 2 && r[0] == ArrayParam(urls) && r[1] == KeyParam(clientId)
  {
    [ArrayParam(urls), KeyParam(clientId)]
  }

  // ---------------------------------------------------------------------
  // Statements

  /** The location UPDATE as written: one SET item reads
      `hours_of operation = $8`, two identifiers where a column name is
      expected, so the parser rejects the whole statement. */
  const LocationSql: ClientUpdate := SyntaxError

  /** The location UPDATE with that item naming `hours_of_operation`. */
  const LocationSqlCorrected: ClientUpdate := Update(
    map[BusinessName := Placeholder(1), AddressStreet := Placeholder(2),
        AddressCity := Placeholder(3), AddressState := Placeholder(4),
        AddressZip := Placeholder(5), Website := Placeholder(6),
        Phone := Placeholder(7), HoursOfOperation := Placeholder(8),
        MicromarketLocation := Placeholder(9), LastActive := Now],
    10)

  const DemographicsSql: ClientUpdate := Update(
    map[NumberOfPeople := Placeholder(1), DemographicsColumn := Placeholder(2),
        NeighborhoodInfo := Placeholder(3), Industry := Placeholder(4),
        TargetAgeGroup := Placeholder(5), LastActive := Now],
    6)

  const AdditionalInfoSql: ClientUpdate := Update(
    map[Dimensions := Placeholder(1), Pictures := Placeholder(2),
        WugsVisit := Placeholder(3), LastActive := Now],
    4)

  /** The client UPDATE of the contact change as written: no comma separates
      `phone = $1` from `last_active = NOW()`, so the parser rejects it. */
  const ContactClientSql: ClientUpdate := SyntaxError

  /** The client UPDATE of the contact change with the comma in place. */
  const ContactClientSqlCorrected: ClientUpdate :=
    Update(map[Phone := Placeholder(1), LastActive := Now], 2)

  const ContactUserSql: UserUpdate :=
    UserUpdate(map[FirstName := 1, LastName := 2, Username := 3], 4)

  /** `UPDATE client SET pictures = pictures || $1 WHERE id = $2`, and the
      same for `contract`. */
  function AppendSql(col: Column): (u: ClientUpdate)
    requires IsUrlList(col)
    ensures u.Update? && col in u.assignments && u.assignments[col].AppendPlaceholder?
    ensures forall other | other in u.assignments :: other == col
  {
    Update(map[col := AppendPlaceholder(1)], 2)
  }

  // ---------------------------------------------------------------------
  // What each statement is meant to write

  function WithLocation(c: Client, b: LocationBody, now: Timestamp): Client
  {
    c.(businessName := b.businessName, addressStreet := b.addressStreet,
       addressCity := b.addressCity, addressState := b.addressState,
       addressZip := b.addressZip, website := b.website, phone := b.phone,
       hoursOfOperation := b.hoursOfOperation,
       micromarketLocation := b.micromarketLocation, lastActive := now)
  }

  /** The body's `age_group` lands in the column `target_age_group`. */
  function WithDemographics(c: Client, b: DemographicsBody, now: Timestamp): Client
  {
    c.(numberOfPeople := b.numberOfPeople, demographics := b.demographics,
       neighborhoodInfo := b.neighborhoodInfo, industry := b.industry,
       targetAgeGroup := b.ageGroup, lastActive := now)
  }

  /** The stored `pictures` list is replaced by the body's, not appended to. */
  function WithAdditionalInfo(c: Client, b: AdditionalInfoBody, now: Timestamp): Client
  {
    c.(dimensions := b.dimensions, pictures := b.pictures, wugsVisit := b.wugsVisit, lastActive := now)
  }

  function WithPhone(c: Client, b: ContactBody, now: Timestamp): Client
  {
    c.(phone := b.phone, lastActive := now)
  }

  function WithNames(u: User, b: ContactBody): User
  {
    u.(firstName := b.firstName, lastName := b.lastName, username := b.username)
  }

  function Attachments(c: Client, col: Column): seq<Url>
    requires IsUrlList(col)
  {
    if col == Pictures then c.pictures else c.contract
  }

  function WithAppended(c: Client, col: Column, urls: seq<Url>): Client
    requires IsUrlList(col)
  {
    if col == Pictures then c.(pictures := c.pictures + urls) else c.(contract := c.contract + urls)
  }

  /** `row` applied to the client keyed `id`, if there is one. */
  function AtKey(clients: map<ClientId, Client>, id: ClientId, row: Client -> Client): map<ClientId, Client>
  {
    if id in clients then clients[id := row(clients[id])] else clients
  }

  // ---------------------------------------------------------------------
  // Each statement does what it is meant to

  /** The location UPDATE as written fails for every body and every client. */
  lemma LocationFails(clients: map<ClientId, Client>, b: LocationBody, clientId: ClientId, now: Timestamp)
    ensures Exec(clients, LocationSql, LocationParams(b, clientId), now) == None
  {
  }

  /** The corrected location UPDATE writes the nine submitted columns and
      `last_active` of the keyed client, and nothing else. */
  lemma LocationCorrectedWrites(clients: map<ClientId, Client>, b: LocationBody, clientId: ClientId, now: Timestamp)
    ensures Exec(clients, LocationSqlCorrected, LocationParams(b, clientId), now)
         == Some(AtKey(clients, clientId, c => WithLocation(c, b, now)))
  {
    LocationCorrectedAccepted(b, clientId);
    if clientId in clients {
      LocationCorrectedRow(clients[clientId], b, clientId, now);
    }
  }

  /** PostgreSQL accepts the corrected location UPDATE with the array the route builds. */
  lemma LocationCorrectedAccepted(b: LocationBody, clientId: ClientId)
    ensures Accepted(LocationSqlCorrected, LocationParams(b, clientId))
  {
  }

  lemma LocationCorrectedRow(c: Client, b: LocationBody, clientId: ClientId, now: Timestamp)
    requires Accepted(LocationSqlCorrected, LocationParams(b, clientId))
    ensures Row(c, LocationSqlCorrected.assignments, LocationParams(b, clientId), now) == WithLocation(c, b, now)
  {
    LocationAddressColumns(c, b, clientId, now);
    LocationContactColumns(c, b, clientId, now);
    LocationOtherColumns(c, b, clientId, now);
  }

  lemma LocationAddressColumns(c: Client, b: LocationBody, clientId: ClientId, now: Timestamp)
    requires Accepted(LocationSqlCorrected, LocationParams(b, clientId))
    ensures FieldAfter(LocationSqlCorrected.assignments, LocationParams(b, clientId), BusinessName, c.businessName) == b.businessName
    ensures FieldAfter(LocationSqlCorrected.assignments, LocationParams(b, clientId), AddressStreet, c.addressStreet) == b.addressStreet
    ensures FieldAfter(LocationSqlCorrected.assignments, LocationParams(b, clientId), AddressCity, c.addressCity) == b.addressCity
    ensures FieldAfter(LocationSqlCorrected.assignments, LocationParams(b, clientId), AddressState, c.addressState) == b.addressState
    ensures FieldAfter(LocationSqlCorrected.assignments, LocationParams(b, clientId), AddressZip, c.addressZip) == b.addressZip
  {
  }

  lemma LocationContactColumns(c: Client, b: LocationBody, clientId: ClientId, now: Timestamp)
    requires Accepted(LocationSqlCorrected, LocationParams(b, clientId))
    ensures FieldAfter(LocationSqlCorrected.assignments, LocationParams(b, clientId), Website, c.website) == b.website
    ensures FieldAfter(LocationSqlCorrected.assignments, LocationParams(b, clientId), Phone, c.phone) == b.phone
    ensures FieldAfter(LocationSqlCorrected.assignments, LocationParams(b, clientId), HoursOfOperation, c.hoursOfOperation) == b.hoursOfOperation
    ensures FieldAfter(LocationSqlCorrected.assignments, LocationParams(b, clientId), MicromarketLocation, c.micromarketLocation) == b.micromarketLocation
    ensures TimeAfter(LocationSqlCorrected.assignments, c.lastActive, now) == now
  {
  }

  lemma LocationOtherColumns(c: Client, b: LocationBody, clientId: ClientId, now: Timestamp)
    requires Accepted(LocationSqlCorrected, LocationParams(b, clientId))
    ensures FieldAfter(LocationSqlCorrected.assignments, LocationParams(b, clientId), NeighborhoodInfo, c.neighborhoodInfo) == c.neighborhoodInfo
    ensures FieldAfter(LocationSqlCorrected.assignments, LocationParams(b, clientId), DemographicsColumn, c.demographics) == c.demographics
    ensures FieldAfter(LocationSqlCorrected.assignments, LocationParams(b, clientId), NumberOfPeople, c.numberOfPeople) == c.numberOfPeople
    ensures FieldAfter(LocationSqlCorrected.assignments, LocationParams(b, clientId), TargetAgeGroup, c.targetAgeGroup) == c.targetAgeGroup
    ensures FieldAfter(LocationSqlCorrected.assignments, LocationParams(b, clientId), Industry, c.industry) == c.industry
    ensures FieldAfter(LocationSqlCorrected.assignments, LocationParams(b, clientId), Dimensions, c.dimensions) == c.dimensions
    ensures FieldAfter(LocationSqlCorrected.assignments, LocationParams(b, clientId), WugsVisit, c.wugsVisit) == c.wugsVisit
    ensures UrlsAfter(LocationSqlCorrected.assignments, LocationParams(b, clientId), Pictures, c.pictures) == c.pictures
    ensures UrlsAfter(LocationSqlCorrected.assignments, LocationParams(b, clientId), Contract, c.contract) == c.contract
  {
  }

  lemma DemographicsWrites(clients: map<ClientId, Client>, b: DemographicsBody, clientId: ClientId, now: Timestamp)
    ensures Exec(clients, DemographicsSql, DemographicsParams(b, clientId), now)
         == Some(AtKey(clients, clientId, c => WithDemographics(c, b, now)))
  {
    DemographicsAccepted(b, clientId);
    if clientId in clients {
      DemographicsRow(clients[clientId], b, clientId, now);
    }
  }

  /** PostgreSQL accepts the demographics UPDATE with the array the route builds. */
  lemma DemographicsAccepted(b: DemographicsBody, clientId: ClientId)
    ensures Accepted(DemographicsSql, DemographicsParams(b, clientId))
  {
  }

  lemma DemographicsRow(c: Client, b: DemographicsBody, clientId: ClientId, now: Timestamp)
    requires Accepted(DemographicsSql, DemographicsParams(b, clientId))
    ensures Row(c, DemographicsSql.assignments, DemographicsParams(b, clientId), now) == WithDemographics(c, b, now)
  {
    DemographicsWrittenColumns(c, b, clientId, now);
    DemographicsOtherColumns(c, b, clientId, now);
  }

  lemma DemographicsWrittenColumns(c: Client, b: DemographicsBody, clientId: ClientId, now: Timestamp)
    requires Accepted(DemographicsSql, DemographicsParams(b, clientId))
    ensures FieldAfter(DemographicsSql.assignments, DemographicsParams(b, clientId), NumberOfPeople, c.numberOfPeople) == b.numberOfPeople
    ensures FieldAfter(DemographicsSql.assignments, DemographicsParams(b, clientId), DemographicsColumn, c.demographics) == b.demographics
    ensures FieldAfter(DemographicsSql.assignments, DemographicsParams(b, clientId), NeighborhoodInfo, c.neighborhoodInfo) == b.neighborhoodInfo
    ensures FieldAfter(DemographicsSql.assignments, DemographicsParams(b, clientId), Industry, c.industry) == b.industry
    ensures FieldAfter(DemographicsSql.assignments, DemographicsParams(b, clientId), TargetAgeGroup, c.targetAgeGroup) == b.ageGroup
    ensures TimeAfter(DemographicsSql.assignments, c.lastActive, now) == now
  {
  }

  lemma DemographicsOtherColumns(c: Client, b: DemographicsBody, clientId: ClientId, now: Timestamp)
    requires Accepted(DemographicsSql, DemographicsParams(b, clientId))
    ensures FieldAfter(DemographicsSql.assignments, DemographicsParams(b, clientId), BusinessName, c.businessName) == c.businessName
    ensures FieldAfter(DemographicsSql.assignments, DemographicsParams(b, clientId), AddressStreet, c.addressStreet) == c.addressStreet
    ensures FieldAfter(DemographicsSql.assignments, DemographicsParams(b, clientId), AddressCity, c.addressCity) == c.addressCity
    ensures FieldAfter(DemographicsSql.assignments, DemographicsParams(b, clientId), AddressState, c.addressState) == c.addressState
    ensures FieldAfter(DemographicsSql.assignments, DemographicsParams(b, clientId), AddressZip, c.addressZip) == c.addressZip
    ensures FieldAfter(DemographicsSql.assignments, DemographicsParams(b, clientId), Website, c.website) == c.website
    ensures FieldAfter(DemographicsSql.assignments, DemographicsParams(b, clientId), Phone, c.phone) == c.phone
    ensures FieldAfter(DemographicsSql.assignments, DemographicsParams(b, clientId), HoursOfOperation, c.hoursOfOperation) == c.hoursOfOperation
    ensures FieldAfter(DemographicsSql.assignments, DemographicsParams(b, clientId), MicromarketLocation, c.micromarketLocation) == c.micromarketLocation
    ensures FieldAfter(DemographicsSql.assignments, DemographicsParams(b, clientId), Dimensions, c.dimensions) == c.dimensions
    ensures FieldAfter(DemographicsSql.assignments, DemographicsParams(b, clientId), WugsVisit, c.wugsVisit) == c.wugsVisit
    ensures UrlsAfter(DemographicsSql.assignments, DemographicsParams(b, clientId), Pictures, c.pictures) == c.pictures
    ensures UrlsAfter(DemographicsSql.assignments, DemographicsParams(b, clientId), Contract, c.contract) == c.contract
  {
  }

  lemma AdditionalInfoWrites(clients: map<ClientId, Client>, b: AdditionalInfoBody, clientId: ClientId, now: Timestamp)
    ensures Exec(clients, AdditionalInfoSql, AdditionalInfoParams(b, clientId), now)
         == Some(AtKey(clients, clientId, c => WithAdditionalInfo(c, b, now)))
  {
    AdditionalInfoAccepted(b, clientId);
    if clientId in clients {
      AdditionalInfoRow(clients[clientId], b, clientId, now);
    }
  }

  /** PostgreSQL accepts the additional-info UPDATE with the array the route builds. */
  lemma AdditionalInfoAccepted(b: AdditionalInfoBody, clientId: ClientId)
    ensures Accepted(AdditionalInfoSql, AdditionalInfoParams(b, clientId))
  {
  }

  lemma AdditionalInfoRow(c: Client, b: AdditionalInfoBody, clientId: ClientId, now: Timestamp)
    requires Accepted(AdditionalInfoSql, AdditionalInfoParams(b, clientId))
    ensures Row(c, AdditionalInfoSql.assignments, AdditionalInfoParams(b, clientId), now) == WithAdditionalInfo(c, b, now)
  {
    AdditionalInfoWrittenColumns(c, b, clientId, now);
    AdditionalInfoOtherColumns(c, b, clientId, now);
  }

  lemma AdditionalInfoWrittenColumns(c: Client, b: AdditionalInfoBody, clientId: ClientId, now: Timestamp)
    requires Accepted(AdditionalInfoSql, AdditionalInfoParams(b, clientId))
    ensures FieldAfter(AdditionalInfoSql.assignments, AdditionalInfoParams(b, clientId), Dimensions, c.dimensions) == b.dimensions
    ensures FieldAfter(AdditionalInfoSql.assignments, AdditionalInfoParams(b, clientId), WugsVisit, c.wugsVisit) == b.wugsVisit
    ensures UrlsAfter(AdditionalInfoSql.assignments, AdditionalInfoParams(b, clientId), Pictures, c.pictures) == b.pictures
    ensures TimeAfter(AdditionalInfoSql.assignments, c.lastActive, now) == now
  {
  }

  lemma AdditionalInfoOtherColumns(c: Client, b: AdditionalInfoBody, clientId: ClientId, now: Timestamp)
    requires Accepted(AdditionalInfoSql, AdditionalInfoParams(b, clientId))
    ensures FieldAfter(AdditionalInfoSql.assignments, AdditionalInfoParams(b, clientId), BusinessName, c.businessName) == c.businessName
    ensures FieldAfter(AdditionalInfoSql.assignments, AdditionalInfoParams(b, clientId), AddressStreet, c.addressStreet) == c.addressStreet
    ensures FieldAfter(AdditionalInfoSql.assignments, AdditionalInfoParams(b, clientId), AddressCity, c.addressCity) == c.addressCity
    ensures FieldAfter(AdditionalInfoSql.assignments, AdditionalInfoParams(b, clientId), AddressState, c.addressState) == c.addressState
    ensures FieldAfter(AdditionalInfoSql.assignments, AdditionalInfoParams(b, clientId), AddressZip, c.addressZip) == c.addressZip
    ensures FieldAfter(AdditionalInfoSql.assignments, AdditionalInfoParams(b, clientId), Website, c.website) == c.website
    ensures FieldAfter(AdditionalInfoSql.assignments, AdditionalInfoParams(b, clientId), Phone, c.phone) == c.phone
    ensures FieldAfter(AdditionalInfoSql.assignments, AdditionalInfoParams(b, clientId), HoursOfOperation, c.hoursOfOperation) == c.hoursOfOperation
    ensures FieldAfter(AdditionalInfoSql.assignments, AdditionalInfoParams(b, clientId), MicromarketLocation, c.micromarketLocation) == c.micromarketLocation
    ensures FieldAfter(AdditionalInfoSql.assignments, AdditionalInfoParams(b, clientId), NeighborhoodInfo, c.neighborhoodInfo) == c.neighborhoodInfo
    ensures FieldAfter(AdditionalInfoSql.assignments, AdditionalInfoParams(b, clientId), DemographicsColumn, c.demographics) == c.demographics
    ensures FieldAfter(AdditionalInfoSql.assignments, AdditionalInfoParams(b, clientId), NumberOfPeople, c.numberOfPeople) == c.numberOfPeople
    ensures FieldAfter(AdditionalInfoSql.assignments, AdditionalInfoParams(b, clientId), TargetAgeGroup, c.targetAgeGroup) == c.targetAgeGroup
    ensures FieldAfter(AdditionalInfoSql.assignments, AdditionalInfoParams(b, clientId), Industry, c.industry) == c.industry
    ensures UrlsAfter(AdditionalInfoSql.assignments, AdditionalInfoParams(b, clientId), Contract, c.contract) == c.contract
  {
  }

  /** The contact change's client UPDATE as written fails for every input. */
  lemma ContactClientFails(clients: map<ClientId, Client>, b: ContactBody, clientId: ClientId, now: Timestamp)
    ensures Exec(clients, ContactClientSql, ContactClientParams(b, clientId), now) == None
  {
  }

  lemma ContactClientCorrectedWrites(clients: map<ClientId, Client>, b: ContactBody, clientId: ClientId, now: Timestamp)
    ensures Exec(clients, ContactClientSqlCorrected, ContactClientParams(b, clientId), now)
         == Some(AtKey(clients, clientId, c => WithPhone(c, b, now)))
  {
  }

  lemma ContactUserWrites(users: map<UserId, User>, b: ContactBody)
    ensures ExecUser(users, ContactUserSql, ContactUserParams(b))
         == Some(if b.userId in users then users[b.userId := WithNames(users[b.userId], b)] else users)
  {
  }

  /** The attachment UPDATE appends the URLs to the keyed client's list. */
  lemma AppendWrites(clients: map<ClientId, Client>, col: Column, urls: seq<Url>, clientId: ClientId, now: Timestamp)
    requires IsUrlList(col)
    ensures Exec(clients, AppendSql(col), AttachmentParams(urls, clientId), now)
         == Some(AtKey(clients, clientId, c => WithAppended(c, col, urls)))
  {
    AppendAccepted(col, urls, clientId);
    if clientId in clients {
      AppendRow(clients[clientId], col, urls, clientId, now);
    }
  }

  /** PostgreSQL accepts either attachment UPDATE with the array the route builds. */
  lemma AppendAccepted(col: Column, urls: seq<Url>, clientId: ClientId)
    requires IsUrlList(col)
    ensures Accepted(AppendSql(col), AttachmentParams(urls, clientId))
  {
  }

  lemma AppendRow(c: Client, col: Column, urls: seq<Url>, clientId: ClientId, now: Timestamp)
    requires IsUrlList(col)
    requires Accepted(AppendSql(col), AttachmentParams(urls, clientId))
    ensures Row(c, AppendSql(col).assignments, AttachmentParams(urls, clientId), now) == WithAppended(c, col, urls)
  {
    var m, ps := AppendSql(col).assignments, AttachmentParams(urls, clientId);
    assert m == map[col := AppendPlaceholder(1)];
    assert forall other | other != col :: other !in m;
  }

}
