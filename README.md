# Client migration tool: a Dafny model of the migration transition

The migration tool keeps a table of clients. Each client is either legacy (`migrated = false`) or migrated (`migrated = true`). A client moves from legacy to migrated one request at a time: `POST /api/migrate/{id}`. `ClientService.migrateClient` looks the client up and refuses a missing or already migrated client. It then announces the client to the new product through `ExternalProductService`. Only when that returns normally does it set the flag and save. The method is transactional, so any exception leaves the table as it was. `GlobalExceptionHandler` turns each exception into an HTTP status and a one-key `{"error": …}` body.

The model has five modules, one per part of the program:

- `Model` (`model.dfy`) holds the shared values. These are `Client`, `ClientMigrationRequest`, `MigrationProperties` with its defaults, and the four exception kinds. It also has Java's decimal rendering of integers, which the exception messages use, and Java's 32-bit `int` wrap-around.
- `Repository` (`repository.dfy`) is `ClientRepository`. It is a class holding a `map<int, Client>` and the next generated id. `Save` is a method that updates the map. `findById`, `count` and the two derived queries are functions over the map. The queries list rows by ascending id.
- `Gateway` (`gateway.dfy`) is `ExternalProductService.migrateClientToNewProduct`. It is a total function of the configuration, the request and the network's answer. It returns `Skipped | Confirmed | Rejected(message)` together with the list of POSTs it made. The module also holds the timeout arithmetic of `RestTemplateConfig`.
- `Errors` (`errors.dfy`) holds the four exception handlers and the controller's `200` on a normal return.
- `Service` (`service.dfy`) has `MigrateClientSpec`, which states what one `migrateClient` call does to the table. It also has the `ClientService` class, whose `MigrateClient` method is proved to do exactly that against a `ClientRepository`, and lemmas about single calls and about runs of many calls.

Inputs that the program gets from outside are parameters:

- `transport` is what the one POST would come back with: a status, or a `RestClientException` message.
- `writeFault` is an exception that the `save` call itself raises, if any.
- `commitFault` is the exception of a failed commit, if any. The commit happens after the method body has returned.

Three points about the code that the model keeps:

- An exception raised by the `save` call itself is inside the same `try` as the gateway call. It becomes a `MigrationException` with the same prefix (`service/ClientService.java:78-89`). The update of the loaded entity is written to the database only when the transaction commits, which is after the body has returned and outside the `try`. A failed commit therefore reaches the generic handler as a 500 "An unexpected error occurred: …", and the table is rolled back.
- An already migrated client is refused with `IllegalStateException` and answered with 400. It is not a 200 no-op.
- A gateway skip carries no reason; the model's `Disabled`/`Unconfigured` tag only records which branch returned.

## Model

| member | source | states |
|---|---|---|
| `Repository.WithFlag` | backend/src/main/java/com/client/migration/repository/ClientRepository.java:15-16 | the query for a flag lists exactly the stored clients with that flag, by strictly ascending id, so without repeats |
| `Repository.QueriesPartition` | backend/src/main/java/com/client/migration/repository/ClientRepository.java:15-16 | every stored client is in exactly one of the two listings, and their lengths add up to the table size |
| `Repository.ClientRepository.FindById` | backend/src/main/java/com/client/migration/repository/ClientRepository.java:14 | `findById` finds a record exactly when the id is stored, and the record found carries that id |
| `Repository.ClientRepository.Count` | backend/src/main/java/com/client/migration/repository/ClientRepository.java:14 | `count` is zero only for the empty table and equals the sizes of the two listings added together |
| `Repository.ClientRepository.FindByMigratedFalse` | backend/src/main/java/com/client/migration/repository/ClientRepository.java:15 | lists exactly the stored clients with `migrated = false`, each once, by ascending id |
| `Repository.ClientRepository.FindByMigratedTrue` | backend/src/main/java/com/client/migration/repository/ClientRepository.java:16 | lists exactly the stored clients with `migrated = true`, each once, by ascending id |
| `Repository.ClientRepository.Save` | backend/src/main/java/com/client/migration/repository/ClientRepository.java:14 | a client with an id replaces that record only; a client with a null id is stored under a fresh id that was not in the table; a storage fault changes nothing; ids keep matching keys |
| `Repository.ClientRepository.Rollback` | backend/src/main/java/com/client/migration/service/ClientService.java:69 | rolling back the transaction restores the table taken when it began and keeps the next id |
| `Gateway.StatusText` | backend/src/main/java/com/client/migration/service/ExternalProductService.java:74 | the printed status begins with the decimal status code |
| `Gateway.MigrateClientToNewProduct` | backend/src/main/java/com/client/migration/service/ExternalProductService.java:42-80 | no POST exactly when skipped; a disabled flag skips whatever the URL; an enabled flag with a null or empty URL skips; otherwise exactly one POST of the request to the configured URL; confirmed exactly for a 2xx response; a non-2xx status is rejected with "…Status: " and the status; a transport error is rejected with "Failed to migrate client to new product: " and its message |
| `Gateway.DisabledIgnoresUrlAndNetwork` | backend/src/main/java/com/client/migration/service/ExternalProductService.java:44-51 | with the flag off, the URL and the network answer make no difference: the flag is checked before the URL |
| `Gateway.RejectionCarriesCause` | backend/src/main/java/com/client/migration/service/ExternalProductService.java:71-78 | a rejection after a response came from a non-2xx status and names it after "Status: "; a rejection after a transport error ends with that error's message |
| `Gateway.Timeouts` | backend/src/main/java/com/client/migration/config/RestTemplateConfig.java:19-21 | connect and read timeouts are equal and are the seconds times 1000 whenever that fits a Java `int` (wrapped otherwise) |
| `Gateway.DefaultTimeouts` | backend/src/main/java/com/client/migration/config/MigrationProperties.java:21 | the default of 30 seconds gives 30000 ms for both phases |
| `Gateway.TimeoutWrapsAboveIntRange` | backend/src/main/java/com/client/migration/config/RestTemplateConfig.java:19 | 2147483 s gives 2147483000 ms; 2147484 s wraps to a negative timeout |
| `Errors.HandleException` | backend/src/main/java/com/client/migration/exception/GlobalExceptionHandler.java:23-53 | not found gives 404, illegal state gives 400, migration and any other exception give 500; the body has the single key "error", holding the message, or "An unexpected error occurred: " and the message for other exceptions |
| `Errors.MigrateResponse` | backend/src/main/java/com/client/migration/controller/ClientController.java:36-40 | a migrate request always answers 200, 400, 404 or 500; 200 with an empty body exactly on a normal return, the handler's answer otherwise |
| `Errors.ClientErrorsIdentifyException` | backend/src/main/java/com/client/migration/exception/GlobalExceptionHandler.java:23-37 | a 404 or 400 answer determines the exception, kind and message |
| `Errors.ServerErrorsCanCoincide` | backend/src/main/java/com/client/migration/exception/GlobalExceptionHandler.java:39-53 | a 500 answer need not: a MigrationException whose message starts with the generic prefix answers like an unexpected error |
| `Service.MigrateClientSpec` | backend/src/main/java/com/client/migration/service/ClientService.java:69-90 | unknown id: ClientNotFoundException "Client not found with id: <id>", nothing sent, table unchanged; migrated client: IllegalStateException, nothing sent, table unchanged; for a legacy client the POSTs are exactly the gateway's, a gateway rejection or a failing `save` throws MigrationException "Migration failed for client <id>: " followed by that exception's own message, and a failed commit throws its own exception; it returns normally exactly when the client exists, is not migrated, the gateway does not reject, and the save and the commit succeed, and then only that client's flag becomes true; on any exception the table is unchanged |
| `Service.AnnouncedExactlyWhenConfigured` | backend/src/main/java/com/client/migration/service/ClientService.java:78-80 | a legacy client is POSTed to the new product exactly when external migration is enabled and a URL is configured, once, with its id and name, to that URL |
| `Service.MigrationOnlyRaisesFlag` | backend/src/main/java/com/client/migration/service/ClientService.java:74-83 | a call never adds or drops a record, never changes an id or a name, never turns a flag from true to false, and changes no record but the requested one |
| `Service.MigrationKeepsTableWellKeyed` | backend/src/main/java/com/client/migration/service/ClientService.java:79-83 | the saved record keeps its id, so ids keep matching keys |
| `Service.SecondMigrationIsRefused` | backend/src/main/java/com/client/migration/service/ClientService.java:74-83 | after a successful call for an id, any later call for it throws IllegalStateException, sends nothing and changes nothing, whatever the configuration or network |
| `Service.MigratedClientMovesToNewClients` | backend/src/main/java/com/client/migration/service/ClientService.java:47-58 | after a successful call the client, with its name, is in the new-clients listing and no legacy listing entry has its id |
| `Service.NotFoundMessageIdentifiesClient` | backend/src/main/java/com/client/migration/service/ClientService.java:71-72 | the not-found message determines the id |
| `Service.AlreadyMigratedMessageIdentifiesClient` | backend/src/main/java/com/client/migration/service/ClientService.java:74-76 | the already-migrated message determines the id |
| `Service.RunNeverUnmigrates` | backend/src/main/java/com/client/migration/service/ClientService.java:74-83 | over any sequence of calls, no record is created, dropped or renamed, and a migrated client stays migrated |
| `Service.AtMostOneSuccessPerClient` | backend/src/main/java/com/client/migration/service/ClientService.java:74-83 | over any sequence of calls, at most one call per id returns normally, and none if the client was missing or already migrated at the start |
| `Service.SeedTable` | backend/src/main/java/com/client/migration/service/ClientService.java:37-38 | the seeded table holds two clients whose ids match their keys |
| `Service.SeededTableListing` | backend/src/main/java/com/client/migration/service/ClientService.java:35-39 | after seeding, the legacy listing is "Client A" then "Client B" and the new-clients listing is empty |
| `Service.DisabledGatewayScenario` | backend/src/main/java/com/client/migration/service/ClientService.java:78-83 | with external migration disabled, migrating Client A returns, sends nothing, and moves it from the legacy to the new listing |
| `Service.RejectedGatewayScenario` | backend/src/main/java/com/client/migration/service/ClientService.java:78-89 | a 302 response from the new product, which the default error handler returns rather than throws, gives MigrationException naming "302 FOUND" after one POST of Client B, and the table is unchanged |
| `Service.UnknownIdScenario` | backend/src/main/java/com/client/migration/service/ClientService.java:71-72 | migrating id 999 in an empty table throws "Client not found with id: 999" and sends nothing |
| `Service.ClientService.constructor` | backend/src/main/java/com/client/migration/service/ClientService.java:28-31 | the service holds the given repository and gateway configuration |
| `Service.ClientService.Init` | backend/src/main/java/com/client/migration/service/ClientService.java:34-40 | an empty table gets "Client A" and "Client B", not migrated, under the next two ids; a non-empty table is left alone |
| `Service.ClientService.GetLegacyClients` | backend/src/main/java/com/client/migration/service/ClientService.java:47-49 | returns the repository's legacy listing: exactly the stored clients not yet migrated, each once, by ascending id |
| `Service.ClientService.GetNewClients` | backend/src/main/java/com/client/migration/service/ClientService.java:56-58 | returns the repository's migrated listing: exactly the stored clients already migrated, each once, by ascending id |
| `Service.ClientService.MigrateClient` | backend/src/main/java/com/client/migration/service/ClientService.java:69-90 | its outcome, the POSTs it makes and the new table are those of `MigrateClientSpec` on the old table, a failed commit being rolled back; the next id is unchanged |

## Left out

- HTTP itself is not modelled: `RestTemplate.exchange`, headers and JSON serialisation. The answer of the one POST is the `transport` input. Spring's default error handler throws for 4xx and 5xx, so such answers usually arrive as a `TransportError`. The model rejects every non-2xx answer either way.
- `HttpStatusCode` is reduced to its number and, for named statuses, the enum name, which is how it prints in the rejection message.
- Logging, bean-validation annotations, JPA and Lombok annotations, and the binding of `MigrationProperties` from configuration are not modelled.
- The transaction manager is modelled only by its commit outcome (`commitFault`) and `Rollback`. In the code, `setMigrated(true)` changes the managed entity in place and a rollback undoes it. In the model the flag is set on a copy, and the table changes only through a `Save` that succeeds, so only a failed commit has something to undo.
- Concurrency and isolation between simultaneous requests are not modelled. Calls are sequential (`RunAll`).
- A failure of `findById` itself (store unavailable before the `try`) is not modelled. It would reach the generic 500 handler.
- A seeding `save` that fails is not modelled, because `Init` passes no storage fault.
- `Repository.ClientRepository.Save`: its precondition excludes saving a client whose id is set but not stored. The code never does this, and what JPA's merge then does depends on the persistence provider.
- Ids are unbounded integers. Java `Long` overflow of generated ids is not modelled.
- Exception messages are never null in the model. Java would print a null message as "null".
- Listings are ordered by ascending id. The code leaves the order to the database.
- `Gateway.MigrateClientToNewProduct`: an exception from `exchange` other than a `RestClientException` is not modelled. One example is an `IllegalArgumentException` for a relative URL. Such an exception escapes the gateway's catch (`service/ExternalProductService.java:76`). `migrateClient` then wraps its message without the "Failed to migrate client to new product: " prefix.
- `frontend/src/services/api.js` is not part of this model.
