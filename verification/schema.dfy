/** Rows of the tables the onboarding routes write: `client`, `"user"`,
    `client_service` and `client_product`. */
module Schema {

  type ClientId = int
  type UserId = int
  /** The value `NOW()` yields when a statement runs. */
  type Timestamp = int
  type Url = string
  /** The id Google Drive assigns to a stored file. */
  type FileId = string

  datatype Option<T> = None | Some(value: T)

  /** A scalar column value as node-postgres binds it: SQL NULL when the
      request body lacks the field, its text otherwise. */
  datatype Field = Null | Text(text: string)

  /** A row of `client`. `pictures` and `contract` are the ordered URL lists
      of the attachments. */
  datatype Client = Client(
    businessName: Field,
    addressStreet: Field,
    addressCity: Field,
    addressState: Field,
    addressZip: Field,
    website: Field,
    phone: Field,
    hoursOfOperation: Field,
    micromarketLocation: Field,
    neighborhoodInfo: Field,
    demographics: Field,
    numberOfPeople: Field,
    targetAgeGroup: Field,
    industry: Field,
    pictures: seq<Url>,
    dimensions: Field,
    wugsVisit: Field,
    contract: seq<Url>,
    lastActive: Timestamp,
    managerId: UserId,
    statusId: Field)

  /** A row of `"user"`, the staff account that manages clients. */
  datatype User = User(firstName: Field, lastName: Field, username: Field)

  /** A row of a join table: `client_service` (itemId is service_id) or
      `client_product` (itemId is product_id). */
  datatype JoinRow = JoinRow(clientId: ClientId, itemId: int)

  /** Everything the routes can change, as one value (what ROLLBACK restores). */
  datatype Tables = Tables(
    clients: map<ClientId, Client>,
    users: map<UserId, User>,
    clientService: seq<JoinRow>,
    clientProduct: seq<JoinRow>)
}
