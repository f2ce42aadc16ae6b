/** The onboarding route handlers as operations on the database they write:
    one method per PUT/POST route, each running its statements in the order
    the handler sends them and answering with the status it sends. Whether a
    statement fails for a reason outside the model (the database is down, a
    constraint is violated, Drive refuses a file) is an input flag; failures
    the statement text itself causes come from `Exec`. */
module OnboardingRouter {
  import opened Schema
  import opened JoinTables
  import opened ClientUpdates
  import opened OnboardingSql
  import opened DriveLinks

  /** What a handler answers: a bare status, or the upload routes' list of
      stored files. */
  datatype Reply = SendStatus(code: int) | SendFiles(files: seq<FileId>)

  /** Status for a handler whose statements all succeeded or not. */
  function StatusOf(ok: bool): Reply
  {
    if ok then SendStatus(200) else SendStatus(500)
  }

  /** After an upload, the attachment list starts with the old list and goes
      on with one link per stored file, in upload order; the other list and
      every other column are as they were. */
  lemma AppendedLinks(c: Client, col: Column, ids: seq<FileId>)
    requires IsUrlList(col)
    ensures Attachments(c, col) <= Attachments(WithAppended(c, col, DriveUrls(ids)), col)
    ensures |Attachments(WithAppended(c, col, DriveUrls(ids)), col)| == |Attachments(c, col)| + |ids|
    ensures forall i | 0 <= i < |ids| ::
      FileIdOf(Attachments(WithAppended(c, col, DriveUrls(ids)), col)[|Attachments(c, col)| + i]) == Some(ids[i])
    ensures WithAppended(c, col, DriveUrls(ids)).(pictures := c.pictures, contract := c.contract) == c
  {
    var was, urls := Attachments(c, col), DriveUrls(ids);
    var after := Attachments(WithAppended(c, col, urls), col);
    assert after == was + urls;
    forall i | 0 <= i < |ids|
      ensures FileIdOf(after[|was| + i]) == Some(ids[i])
    {
      assert after[|was| + i] == urls[i];
    }
  }

  /** Two uploads in a row leave the same list as one upload of both
      batches: the second batch lands after the first, and resubmitting a
      batch appends its links again. */
  lemma AppendTwice(c: Client, col: Column, first: seq<FileId>, second: seq<FileId>)
    requires IsUrlList(col)
    ensures WithAppended(WithAppended(c, col, DriveUrls(first)), col, DriveUrls(second))
         == WithAppended(c, col, DriveUrls(first + second))
  {
    var a, b, ab := DriveUrls(first), DriveUrls(second), DriveUrls(first + second);
    DriveUrlsConcat(first, second);
    AppendAssociative(c, col, a, b, ab);
  }

  lemma AppendAssociative(c: Client, col: Column, a: seq<Url>, b: seq<Url>, ab: seq<Url>)
    requires IsUrlList(col) && ab == a + b
    ensures WithAppended(WithAppended(c, col, a), col, b) == WithAppended(c, col, ab)
  {
    if col == Pictures {
      assert c.pictures + a + b == c.pictures + ab;
    } else {
      assert c.contract + a + b == c.contract + ab;
    }
  }

  class Store {
    var clients: map<ClientId, Client>
    var users: map<UserId, User>
    var clientService: seq<JoinRow>
    var clientProduct: seq<JoinRow>
    /** Files in the Drive upload folder, in the order they were stored. */
    var driveFolder: seq<FileId>
    /** Pool connections checked out and not yet released. */
    var checkedOut: nat
    /** The tables as they were at BEGIN, while a transaction is open. */
    var savepoint: Option<Tables>

    /** `client_product` holds each (client, product) pair at most once, the
        unique key its ON CONFLICT clause names; between requests no
        transaction is open. */
    ghost predicate Valid()
      reads this
    {
      NoDuplicates(clientProduct) && savepoint.None?
    }

    function Snapshot(): Tables
      reads this
    {
      Tables(clients, users, clientService, clientProduct)
    }

    constructor(clients: map<ClientId, Client>, users: map<UserId, User>,
                clientService: seq<JoinRow>, clientProduct: seq<JoinRow>)
      requires NoDuplicates(clientProduct)
      ensures Valid()
      ensures Snapshot() == Tables(clients, users, clientService, clientProduct)
      ensures driveFolder == [] && checkedOut == 0
    {
      this.clients := clients;
      this.users := users;
      this.clientService := clientService;
      this.clientProduct := clientProduct;
      driveFolder := [];
      checkedOut := 0;
      savepoint := None;
    }

    // -------------------------------------------------------------------
    // PUT /servicechoice/:id

    /** Two separate statements, no transaction: DELETE every service row of
        the client, then INSERT one row per submitted id. A failed INSERT
        leaves the DELETE in place. Duplicate ids give duplicate rows, since
        the INSERT has no conflict clause. */
    method PutServiceChoice(clientId: ClientId, serviceIds: seq<int>, deleteFails: bool, insertFails: bool)
      returns (reply: Reply)
      requires Valid()
      modifies this`clientService
      ensures Valid()
      ensures reply == StatusOf(!deleteFails && !insertFails)
      ensures clientService ==
        if deleteFails then old(clientService)
        else if insertFails then DeleteRows(old(clientService), clientId, {})
        else ReplaceRows(old(clientService), clientId, serviceIds)
    {
      if deleteFails {
        return SendStatus(500);
      }
      clientService := DeleteRows(clientService, clientId, {});
      if insertFails {
        return SendStatus(500);
      }
      clientService := clientService + InsertRows(clientId, serviceIds);
      reply := SendStatus(200);
    }

    // -------------------------------------------------------------------
    // POST /foodpreferences

    /** DELETE the client's product rows whose id is not submitted, then
        INSERT the submitted ids, skipping pairs already stored. An empty
        list makes the DELETE read `NOT IN ()`, which does not parse. */
    method PostFoodPreferences(clientId: ClientId, productIds: seq<int>, deleteFails: bool, insertFails: bool)
      returns (reply: Reply)
      requires Valid()
      modifies this`clientProduct
      ensures Valid()
      ensures reply == StatusOf(productIds != [] && !deleteFails && !insertFails)
      ensures clientProduct ==
        if productIds == [] || deleteFails then old(clientProduct)
        else if insertFails then DeleteRows(old(clientProduct), clientId, Elems(productIds))
        else Reconcile(old(clientProduct), clientId, productIds)
    {
      if productIds == [] || deleteFails {
        return SendStatus(500);
      }
      DeleteRowsNoDuplicates(clientProduct, clientId, Elems(productIds));
      clientProduct := DeleteRows(clientProduct, clientId, Elems(productIds));
      if insertFails {
        return SendStatus(500);
      }
      InsertIgnoringNoDuplicates(clientProduct, clientId, productIds);
      clientProduct := InsertIgnoring(clientProduct, clientId, productIds);
      reply := SendStatus(200);
    }

    // -------------------------------------------------------------------
    // Single-statement client updates

    /** Send one UPDATE of `client`: PostgreSQL applies it when it accepts it
        and nothing outside the model makes it fail. */
    method RunClientUpdate(u: ClientUpdate, params: seq<Param>, now: Timestamp, fails: bool) returns (ok: bool)
      modifies this`clients
      ensures ok <==> !fails && Accepted(u, params)
      ensures clients == if ok then Exec(old(clients), u, params, now).value else old(clients)
    {
      var r := Exec(clients, u, params, now);
      if fails || r.None? {
        return false;
      }
      clients := r.value;
      ok := true;
    }

    /** PUT /clientlocationinfo/:id as written: the statement never parses,
        so every request answers 500 and nothing changes. */
    method PutClientLocationInfo(clientId: ClientId, b: LocationBody, now: Timestamp, fails: bool)
      returns (reply: Reply)
      requires Valid()
      modifies this`clients
      ensures Valid()
      ensures reply == SendStatus(500)
      ensures clients == old(clients)
    {
      LocationFails(clients, b, clientId, now);
      var ok := RunClientUpdate(LocationSql, LocationParams(b, clientId), now, fails);
      reply := StatusOf(ok);
    }

    /** PUT /clientlocationinfo/:id with the column name corrected. */
    method PutClientLocationInfoCorrected(clientId: ClientId, b: LocationBody, now: Timestamp, fails: bool)
      returns (reply: Reply)
      requires Valid()
      modifies this`clients
      ensures Valid()
      ensures reply == StatusOf(!fails)
      ensures clients == if fails then old(clients) else AtKey(old(clients), clientId, c => WithLocation(c, b, now))
    {
      LocationCorrectedWrites(clients, b, clientId, now);
      var ok := RunClientUpdate(LocationSqlCorrected, LocationParams(b, clientId), now, fails);
      reply := StatusOf(ok);
    }

    /** PUT /demographics/:id. */
    method PutDemographics(clientId: ClientId, b: DemographicsBody, now: Timestamp, fails: bool)
      returns (reply: Reply)
      requires Valid()
      modifies this`clients
      ensures Valid()
      ensures reply == StatusOf(!fails)
      ensures clients == if fails then old(clients) else AtKey(old(clients), clientId, c => WithDemographics(c, b, now))
    {
      DemographicsWrites(clients, b, clientId, now);
      var ok := RunClientUpdate(DemographicsSql, DemographicsParams(b, clientId), now, fails);
      reply := StatusOf(ok);
    }

    /** PUT /additionalinfo/:id. */
    method PutAdditionalInfo(clientId: ClientId, b: AdditionalInfoBody, now: Timestamp, fails: bool)
      returns (reply: Reply)
      requires Valid()
      modifies this`clients
      ensures Valid()
      ensures reply == StatusOf(!fails)
      ensures clients == if fails then old(clients) else AtKey(old(clients), clientId, c => WithAdditionalInfo(c, b, now))
    {
      AdditionalInfoWrites(clients, b, clientId, now);
      var ok := RunClientUpdate(AdditionalInfoSql, AdditionalInfoParams(b, clientId), now, fails);
      reply := StatusOf(ok);
    }

    // -------------------------------------------------------------------
    // PUT /changecontact/:id

    method RunUserUpdate(u: UserUpdate, params: seq<Param>, fails: bool) returns (ok: bool)
      modifies this`users
      ensures ok <==> !fails && UserAccepted(u, params)
      ensures users == if ok then ExecUser(old(users), u, params).value else old(users)
    {
      var r := ExecUser(users, u, params);
      if fails || r.None? {
        return false;
      }
      users := r.value;
      ok := true;
    }

    /** Put the tables back as they were at BEGIN. */
    method Rollback()
      requires savepoint.Some?
      modifies this`clients, this`users, this`clientService, this`clientProduct, this`savepoint
      ensures Snapshot() == old(savepoint.value)
      ensures savepoint.None?
    {
      var s := savepoint.value;
      clients, users, clientService, clientProduct := s.clients, s.users, s.clientService, s.clientProduct;
      savepoint := None;
    }

    /** Check out a connection, BEGIN, update the client, update the user,
        COMMIT; on a failed statement ROLLBACK instead; release the
        connection on every path. Both rows change, or neither does. */
    method ContactTransaction(clientSql: ClientUpdate, clientId: ClientId, b: ContactBody, now: Timestamp,
                              clientFails: bool, userFails: bool)
      returns (reply: Reply)
      requires Valid()
      modifies this
      ensures Valid()
      ensures checkedOut == old(checkedOut)
      ensures driveFolder == old(driveFolder)
      ensures clientService == old(clientService) && clientProduct == old(clientProduct)
      ensures
        var c := if clientFails then None else Exec(old(clients), clientSql, ContactClientParams(b, clientId), now);
        var u := if userFails then None else ExecUser(old(users), ContactUserSql, ContactUserParams(b));
        if c.Some? && u.Some? then
          reply == SendStatus(200) && clients == c.value && users == u.value
        else
          reply == SendStatus(500) && clients == old(clients) && users == old(users)
    {
      checkedOut := checkedOut + 1;
      savepoint := Some(Snapshot());
      var ok := RunClientUpdate(clientSql, ContactClientParams(b, clientId), now, clientFails);
      if ok {
        ok := RunUserUpdate(ContactUserSql, ContactUserParams(b), userFails);
      }
      if ok {
        savepoint := None;
        reply := SendStatus(200);
      } else {
        Rollback();
        reply := SendStatus(500);
      }
      checkedOut := checkedOut - 1;
    }

    /** PUT /changecontact/:id as written: the client statement never
        parses, so the transaction always rolls back and answers 500. */
    method PutChangeContact(clientId: ClientId, b: ContactBody, now: Timestamp, clientFails: bool, userFails: bool)
      returns (reply: Reply)
      requires Valid()
      modifies this
      ensures Valid()
      ensures reply == SendStatus(500)
      ensures Snapshot() == old(Snapshot())
      ensures checkedOut == old(checkedOut) && driveFolder == old(driveFolder)
    {
      ContactClientFails(clients, b, clientId, now);
      reply := ContactTransaction(ContactClientSql, clientId, b, now, clientFails, userFails);
    }

    /** PUT /changecontact/:id with the comma in place: the client's phone
        and `last_active` and the user's names change together, or neither. */
    method PutChangeContactCorrected(clientId: ClientId, b: ContactBody, now: Timestamp, clientFails: bool, userFails: bool)
      returns (reply: Reply)
      requires Valid()
      modifies this
      ensures Valid()
      ensures reply == StatusOf(!clientFails && !userFails)
      ensures checkedOut == old(checkedOut) && driveFolder == old(driveFolder)
      ensures clientService == old(clientService) && clientProduct == old(clientProduct)
      ensures clients == if reply == SendStatus(200) then AtKey(old(clients), clientId, c => WithPhone(c, b, now)) else old(clients)
      ensures users == if reply == SendStatus(200) && b.userId in old(users)
                       then old(users)[b.userId := WithNames(old(users)[b.userId], b)]
                       else old(users)
    {
      ContactClientCorrectedWrites(clients, b, clientId, now);
      ContactUserWrites(users, b);
      reply := ContactTransaction(ContactClientSqlCorrected, clientId, b, now, clientFails, userFails);
    }

    // -------------------------------------------------------------------
    // POST /upload/pictures/:id and POST /upload/contract/:id

    /** Store every received file in Drive, build one link per stored file,
        and append the links to the client's list. A rejected Drive request,
        or an empty batch (reading the first stored file's id throws), ends
        in 500 before the UPDATE; the files stored by then stay in Drive. */
    method UploadAttachments(col: Column, clientId: ClientId, responses: seq<DriveResponse>, updateFails: bool)
      returns (reply: Reply)
      requires IsUrlList(col)
      requires Valid()
      modifies this`clients, this`driveFolder
      ensures Valid()
      ensures driveFolder == old(driveFolder) + StoredIds(responses)
      ensures
        if responses != [] && AllCreated(responses) && !updateFails then
          && reply == SendFiles(StoredIds(responses))
          && clients == AtKey(old(clients), clientId, c => WithAppended(c, col, DriveUrls(StoredIds(responses))))
        else
          reply == SendStatus(500) && clients == old(clients)
    {
      var ok, stored := UploadAll(responses);
      driveFolder := driveFolder + stored;
      if !ok || |stored| == 0 {
        return SendStatus(500);
      }
      var urls := FileUrls(stored);
      // The append statement does not read the clock, so any value will do.
      AppendWrites(clients, col, urls, clientId, 0);
      var done := RunClientUpdate(AppendSql(col), AttachmentParams(urls, clientId), 0, updateFails);
      reply := if done then SendFiles(stored) else SendStatus(500);
    }

    method PostUploadPictures(clientId: ClientId, responses: seq<DriveResponse>, updateFails: bool)
      returns (reply: Reply)
      requires Valid()
      modifies this`clients, this`driveFolder
      ensures Valid()
      ensures driveFolder == old(driveFolder) + StoredIds(responses)
      ensures
        if responses != [] && AllCreated(responses) && !updateFails then
          && reply == SendFiles(StoredIds(responses))
          && clients == AtKey(old(clients), clientId, c => WithAppended(c, Pictures, DriveUrls(StoredIds(responses))))
        else
          reply == SendStatus(500) && clients == old(clients)
    {
      reply := UploadAttachments(Pictures, clientId, responses, updateFails);
    }

    method PostUploadContract(clientId: ClientId, responses: seq<DriveResponse>, updateFails: bool)
      returns (reply: Reply)
      requires Valid()
      modifies this`clients, this`driveFolder
      ensures Valid()
      ensures driveFolder == old(driveFolder) + StoredIds(responses)
      ensures
        if responses != [] && AllCreated(responses) && !updateFails then
          && reply == SendFiles(StoredIds(responses))
          && clients == AtKey(old(clients), clientId, c => WithAppended(c, Contract, DriveUrls(StoredIds(responses))))
        else
          reply == SendStatus(500) && clients == old(clients)
    {
      reply := UploadAttachments(Contract, clientId, responses, updateFails);
    }
  }
}
