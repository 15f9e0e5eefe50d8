/** ClientService: seeding, the two listings, and migrateClient, the
    transactional step that marks a client migrated only after the new
    product has accepted it. MigrateClientSpec states what one call does to
    the table; the ClientService class runs it against a ClientRepository. */
module Service {
  import opened Model
  import opened Repository
  import opened Gateway

  function NotFoundMessage(id: int): string {
    "Client not found with id: " + DecimalString(id)
  }

  function AlreadyMigratedMessage(id: int): string {
    "Client with id " + DecimalString(id) + " is already migrated"
  }

  function MigrationFailedMessage(id: int, cause: string): string {
    "Migration failed for client " + DecimalString(id) + ": " + cause
  }

  /** One migrate call seen from outside: how it ended, what it sent to the
      new product, and the table afterwards. */
  datatype Attempt = Attempt(outcome: Outcome, sent: seq<Post>, records: map<int, Client>)

  /** migrateClient(id) on table `records`. `transport` is what the POST to
      the new product would yield; `writeFault` is an exception raised by the
      `save` call itself, inside the `try`; `commitFault` is a failure of the
      transaction's commit, which flushes the update after the method body has
      returned, outside the `try`. The method is @Transactional: when it
      throws, the table is exactly as before. */
  function MigrateClientSpec(
    records: map<int, Client>, properties: MigrationProperties, id: int,
    transport: TransportOutcome, writeFault: Option<string>, commitFault: Option<string>)
    : (a: Attempt)
    // lookup and state check come before any call, and change nothing
    ensures id !in records ==> a == Attempt(Threw(ClientNotFound(NotFoundMessage(id))), [], records)
    ensures id in records && records[id].migrated ==>
      a == Attempt(Threw(IllegalState(AlreadyMigratedMessage(id))), [], records)
    // a legacy client is announced exactly as the gateway decides, and every
    // failure inside the try is wrapped with its own message as the cause
    ensures id in records && !records[id].migrated ==>
      var call := MigrateClientToNewProduct(properties, ClientMigrationRequest(records[id].id, records[id].name), transport);
      && a.sent == call.sent
      && (call.result.Rejected? ==> a.outcome == Threw(Migration(MigrationFailedMessage(id, call.result.message))))
      && (!call.result.Rejected? && writeFault.Some? ==>
            a.outcome == Threw(Migration(MigrationFailedMessage(id, writeFault.value))))
      && (!call.result.Rejected? && writeFault.None? && commitFault.Some? ==>
            a.outcome == Threw(Unexpected(commitFault.value)))
    // at most one POST, carrying the loaded client's id and name
    ensures |a.sent| <= 1
    ensures a.sent != [] ==>
      id in records && a.sent[0].body == ClientMigrationRequest(records[id].id, records[id].name)
    // all or nothing
    ensures a.outcome.Threw? ==> a.records == records
    ensures a.outcome.Returned? <==>
      && id in records && !records[id].migrated
      && !MigrateClientToNewProduct(properties, ClientMigrationRequest(records[id].id, records[id].name), transport).result.Rejected?
      && writeFault.None? && commitFault.None?
    ensures a.outcome.Returned? ==> a.records == records[id := records[id].(migrated := true)]
    // failures after the checks are a wrapped MigrationException, or the
    // commit's own exception
    ensures a.outcome.Threw? && id in records && !records[id].migrated ==>
      || (a.outcome.exception.Migration?
          && StartsWith(a.outcome.exception.message, "Migration failed for client " + DecimalString(id) + ": "))
      || (commitFault.Some? && a.outcome.exception == Unexpected(commitFault.value))
  {
    if id !in records then
      Attempt(Threw(ClientNotFound(NotFoundMessage(id))), [], records)
    else
      var client := records[id];
      if client.migrated then
        Attempt(Threw(IllegalState(AlreadyMigratedMessage(id))), [], records)
      else
        var call := MigrateClientToNewProduct(properties, ClientMigrationRequest(client.id, client.name), transport);
        if call.result.Rejected? then
          Attempt(Threw(Migration(MigrationFailedMessage(id, call.result.message))), call.sent, records)
        else if writeFault.Some? then
          Attempt(Threw(Migration(MigrationFailedMessage(id, writeFault.value))), call.sent, records)
        else if commitFault.Some? then
          Attempt(Threw(Unexpected(commitFault.value)), call.sent, records)
        else
          Attempt(Returned, call.sent, records[id := client.(migrated := true)])
  }

  /** A legacy client is announced to the new product exactly when external
      migration is enabled and a URL is configured, by one POST of its id and
      name to that URL, whatever then happens to the call. */
  lemma AnnouncedExactlyWhenConfigured(
    records: map<int, Client>, properties: MigrationProperties, id: int,
    transport: TransportOutcome, writeFault: Option<string>, commitFault: Option<string>)
    requires id in records && !records[id].migrated
    ensures var a := MigrateClientSpec(records, properties, id, transport, writeFault, commitFault);
      && (a.sent == [] <==> !properties.enableExternalMigration || !UrlConfigured(properties))
      && (a.sent != [] ==>
            a.sent == [Post(properties.newProductApiUrl.value, ClientMigrationRequest(records[id].id, records[id].name))])
  {
  }

  /** What one call may do to any record: ids, names and the set of stored
      ids never change, a flag never goes from true to false, and no record
      other than the requested one changes at all. */
  lemma MigrationOnlyRaisesFlag(
    records: map<int, Client>, properties: MigrationProperties, id: int,
    transport: TransportOutcome, writeFault: Option<string>, commitFault: Option<string>)
    ensures var after := MigrateClientSpec(records, properties, id, transport, writeFault, commitFault).records;
      && after.Keys == records.Keys
      && forall k :: k in records ==>
        && after[k].id == records[k].id
        && after[k].name == records[k].name
        && (records[k].migrated ==> after[k].migrated)
        && (k != id ==> after[k] == records[k])
  {
  }

  /** The table invariant survives a migration. */
  lemma MigrationKeepsTableWellKeyed(
    records: map<int, Client>, nextId: int, properties: MigrationProperties, id: int,
    transport: TransportOutcome, writeFault: Option<string>, commitFault: Option<string>)
    requires WellKeyed(records, nextId)
    ensures WellKeyed(MigrateClientSpec(records, properties, id, transport, writeFault, commitFault).records, nextId)
  {
  }

  /** Once a call has migrated id, every later call for id is refused with
      IllegalStateException, sends nothing and changes nothing. */
  lemma SecondMigrationIsRefused(
    records: map<int, Client>, properties: MigrationProperties, id: int,
    transport: TransportOutcome, writeFault: Option<string>, commitFault: Option<string>,
    laterProperties: MigrationProperties, laterTransport: TransportOutcome,
    laterFault: Option<string>, laterCommitFault: Option<string>)
    requires MigrateClientSpec(records, properties, id, transport, writeFault, commitFault).outcome.Returned?
    ensures var after := MigrateClientSpec(records, properties, id, transport, writeFault, commitFault).records;
      MigrateClientSpec(after, laterProperties, id, laterTransport, laterFault, laterCommitFault)
        == Attempt(Threw(IllegalState(AlreadyMigratedMessage(id))), [], after)
  {
  }

  /** After a successful migration the client is listed among the new
      clients, with its name, and no longer among the legacy ones. */
  lemma MigratedClientMovesToNewClients(
    records: map<int, Client>, nextId: int, properties: MigrationProperties, id: int,
    transport: TransportOutcome, writeFault: Option<string>, commitFault: Option<string>)
    requires WellKeyed(records, nextId)
    requires MigrateClientSpec(records, properties, id, transport, writeFault, commitFault).outcome.Returned?
    ensures var after := MigrateClientSpec(records, properties, id, transport, writeFault, commitFault).records;
      && WellKeyed(after, nextId)
      && Client(Some(id), records[id].name, true) in WithFlag(after, nextId, true)
      && forall c :: c in WithFlag(after, nextId, false) ==> c.id != Some(id)
  {
  }

  /** The not-found message names the id it refused. */
  lemma NotFoundMessageIdentifiesClient(x: int, y: int)
    requires NotFoundMessage(x) == NotFoundMessage(y)
    ensures x == y
  {
    SamePrefixSameTail("Client not found with id: ", DecimalString(x), DecimalString(y));
    DecimalStringInjective(x, y);
  }

  /** The already-migrated message names the id it refused. */
  lemma AlreadyMigratedMessageIdentifiesClient(x: int, y: int)
    requires AlreadyMigratedMessage(x) == AlreadyMigratedMessage(y)
    ensures x == y
  {
    var p, q := "Client with id ", " is already migrated";
    assert (p + DecimalString(x)) + q == (p + DecimalString(y)) + q;
    SameSuffixSameHead(p + DecimalString(x), p + DecimalString(y), q);
    SamePrefixSameTail(p, DecimalString(x), DecimalString(y));
    DecimalStringInjective(x, y);
  }

  // A sequence of migrate requests, one after another, against one table.

  datatype Request = Request(
    id: int, transport: TransportOutcome, writeFault: Option<string>, commitFault: Option<string>)

  datatype Run = Run(outcomes: seq<Outcome>, records: map<int, Client>)

  function RunAll(records: map<int, Client>, properties: MigrationProperties, requests: seq<Request>): (r: Run)
    ensures |r.outcomes| == |requests|
    decreases |requests|
  {
    if requests == [] then Run([], records)
    else
      var q := requests[0];
      var a := MigrateClientSpec(records, properties, q.id, q.transport, q.writeFault, q.commitFault);
      var rest := RunAll(a.records, properties, requests[1..]);
      Run([a.outcome] + rest.outcomes, rest.records)
  }

  /** How many of the requests for id returned normally. */
  function SuccessesFor(requests: seq<Request>, outcomes: seq<Outcome>, id: int): nat
    requires |outcomes| == |requests|
    decreases |requests|
  {
    if requests == [] then 0
    else
      (if requests[0].id == id && outcomes[0].Returned? then 1 else 0)
      + SuccessesFor(requests[1..], outcomes[1..], id)
  }

  /** Over any run, a migrated client stays migrated, and no record is
      created, dropped or renamed. */
  lemma {:induction false} RunNeverUnmigrates(
    records: map<int, Client>, properties: MigrationProperties, requests: seq<Request>)
    ensures var after := RunAll(records, properties, requests).records;
      && after.Keys == records.Keys
      && forall k :: k in records ==>
        after[k].id == records[k].id && after[k].name == records[k].name
        && (records[k].migrated ==> after[k].migrated)
    decreases |requests|
  {
    if requests != [] {
      var q := requests[0];
      var a := MigrateClientSpec(records, properties, q.id, q.transport, q.writeFault, q.commitFault);
      MigrationOnlyRaisesFlag(records, properties, q.id, q.transport, q.writeFault, q.commitFault);
      RunNeverUnmigrates(a.records, properties, requests[1..]);
    }
  }

  /** Over any run, each client is migrated at most once, and not at all if
      it was missing or already migrated at the start. */
  lemma {:induction false} AtMostOneSuccessPerClient(
    records: map<int, Client>, properties: MigrationProperties, requests: seq<Request>, id: int)
    ensures SuccessesFor(requests, RunAll(records, properties, requests).outcomes, id)
      <= if id in records && !records[id].migrated then 1 else 0
    decreases |requests|
  {
    if requests != [] {
      var q := requests[0];
      var a := MigrateClientSpec(records, properties, q.id, q.transport, q.writeFault, q.commitFault);
      var outcomes := RunAll(records, properties, requests).outcomes;
      AtMostOneSuccessPerClient(a.records, properties, requests[1..], id);
      assert outcomes[1..] == RunAll(a.records, properties, requests[1..]).outcomes;
      MigrationOnlyRaisesFlag(records, properties, q.id, q.transport, q.writeFault, q.commitFault);
    }
  }

  /** The table init creates when ids start at n. */
  function SeedTable(n: int): (t: map<int, Client>)
    requires 1 <= n
    ensures WellKeyed(t, n + 2) && |t| == 2
  {
    map[n := Client(Some(n), "Client A", false), n + 1 := Client(Some(n + 1), "Client B", false)]
  }

  /** After seeding, the legacy listing is "Client A" then "Client B", and
      no client is listed as migrated. */
  lemma SeededTableListing(n: int)
    requires 1 <= n
    ensures WithFlag(SeedTable(n), n + 2, false)
      == [Client(Some(n), "Client A", false), Client(Some(n + 1), "Client B", false)]
    ensures WithFlag(SeedTable(n), n + 2, true) == []
  {
    var t := SeedTable(n);
    NothingBelowFirstKey(t, n, false);
    NothingBelowFirstKey(t, n, true);
    assert Scan(t, n + 1, false) == [t[n]];
    assert Scan(t, n + 2, false) == [t[n], t[n + 1]];
    assert Scan(t, n + 1, true) == [];
  }

  // Worked cases.

  /** Client A, external migration disabled: migrate(1) returns, nothing is
      sent, and Client A moves from the legacy to the new listing. */
  lemma DisabledGatewayScenario(transport: TransportOutcome)
    ensures var records := map[1 := Client(Some(1), "Client A", false)];
      var a := MigrateClientSpec(records, DefaultProperties.(enableExternalMigration := false), 1, transport, None, None);
      && a.outcome == Returned
      && a.sent == []
      && WithFlag(a.records, 2, true) == [Client(Some(1), "Client A", true)]
      && WithFlag(a.records, 2, false) == []
  {
  }

  /** Client B, a configured URL answering 302: the default error handler
      lets a redirect through as a response, so migrate(2) throws a
      MigrationException naming the status, after one POST, and Client B
      stays a legacy client. */
  lemma RejectedGatewayScenario()
    ensures var records := map[2 := Client(Some(2), "Client B", false)];
      var properties := DefaultProperties.(newProductApiUrl := Some("http://new-product/api/clients"));
      var status := HttpStatusCode(302, Some("FOUND"));
      var a := MigrateClientSpec(records, properties, 2, Responded(status), None, None);
      && a.outcome == Threw(Migration(MigrationFailedMessage(2, StatusFailurePrefix + "302 FOUND")))
      && a.sent == [Post("http://new-product/api/clients", ClientMigrationRequest(Some(2), "Client B"))]
      && a.records == records
  {
  }

  /** migrate(999) on an empty table: ClientNotFoundException naming 999. */
  lemma UnknownIdScenario(
    properties: MigrationProperties, transport: TransportOutcome, writeFault: Option<string>, commitFault: Option<string>)
    ensures MigrateClientSpec(map[], properties, 999, transport, writeFault, commitFault)
      == Attempt(Threw(ClientNotFound("Client not found with id: 999")), [], map[])
  {
    assert DigitChar(9) == '9';
    assert Digits(9) == "9";
    assert Digits(99) == Digits(9) + "9" == "99";
    assert Digits(999) == Digits(99) + "9" == "999";
    assert NotFoundMessage(999) == "Client not found with id: 999";
  }

  // The service object.

  class ClientService {
    const repository: ClientRepository
    /** The configuration ExternalProductService was built with. */
    const properties: MigrationProperties

    ghost predicate Valid()
      reads this, repository
    {
      repository.Valid()
    }

    constructor (repository: ClientRepository, properties: MigrationProperties)
      requires repository.Valid()
      ensures Valid() && this.repository == repository && this.properties == properties
    {
      this.repository := repository;
      this.properties := properties;
    }

    /** init: an empty table is seeded with "Client A" and "Client B", both
        legacy, under the next two ids; a non-empty table is left alone. */
    method Init()
      requires Valid()
      modifies repository
      ensures Valid()
      ensures old(repository.records) != map[] ==>
        repository.records == old(repository.records) && repository.nextId == old(repository.nextId)
      ensures old(repository.records) == map[] ==>
        var n := old(repository.nextId);
        && repository.records == SeedTable(n)
        && repository.nextId == n + 2
    {
      if repository.Count() == 0 {
        var _ := repository.Save(Client(None, "Client A", false), None);
        var _ := repository.Save(Client(None, "Client B", false), None);
      }
    }

    /** getLegacyClients: exactly the clients not yet migrated. */
    method GetLegacyClients() returns (clients: seq<Client>)
      requires Valid()
      ensures clients == repository.FindByMigratedFalse()
      ensures forall c :: c in clients <==> c in repository.records.Values && !c.migrated
      ensures forall i, j :: 0 <= i < j < |clients| ==> clients[i].id.Some? && clients[j].id.Some? && clients[i].id.value < clients[j].id.value
    {
      clients := repository.FindByMigratedFalse();
    }

    /** getNewClients: exactly the clients already migrated. */
    method GetNewClients() returns (clients: seq<Client>)
      requires Valid()
      ensures clients == repository.FindByMigratedTrue()
      ensures forall c :: c in clients <==> c in repository.records.Values && c.migrated
      ensures forall i, j :: 0 <= i < j < |clients| ==> clients[i].id.Some? && clients[j].id.Some? && clients[i].id.value < clients[j].id.value
    {
      clients := repository.FindByMigratedTrue();
    }

    /** migrateClient(id): look the client up, refuse a missing or migrated
        one, announce it to the new product, and only then mark it migrated
        and save it. A failure of the announcement or of the save becomes a
        MigrationException; a failed commit rolls the save back and its
        exception leaves the method as it is. Either way the table is as it
        was. */
    method MigrateClient(
      id: int, transport: TransportOutcome, writeFault: Option<string>, commitFault: Option<string>)
      returns (outcome: Outcome, sent: seq<Post>)
      requires Valid()
      modifies repository
      ensures Valid()
      ensures repository.nextId == old(repository.nextId)
      ensures var a := MigrateClientSpec(old(repository.records), properties, id, transport, writeFault, commitFault);
        outcome == a.outcome && sent == a.sent && repository.records == a.records
    {
      var found := repository.FindById(id);
      if found.None? {
        return Threw(ClientNotFound(NotFoundMessage(id))), [];
      }
      var client := found.value;
      if client.migrated {
        return Threw(IllegalState(AlreadyMigratedMessage(id))), [];
      }
      var before := repository.records;
      var request := ClientMigrationRequest(client.id, client.name);
      var call := MigrateClientToNewProduct(properties, request, transport);
      sent := call.sent;
      if call.result.Rejected? {
        return Threw(Migration(MigrationFailedMessage(id, call.result.message))), sent;
      }
      client := client.(migrated := true);
      var saved := repository.Save(client, writeFault);
      if saved.Failure? {
        return Threw(Migration(MigrationFailedMessage(id, saved.error))), sent;
      }
      // the body has returned; the transaction now commits
      if commitFault.Some? {
        repository.Rollback(before);
        return Threw(Unexpected(commitFault.value)), sent;
      }
      outcome := Returned;
    }
  }
}
