# Notification service: registry, dispatcher, records and enum mapping

A Dafny model of the core of a small notification microservice. Four parts are modelled:

- **Subscriber registry and emitter lifecycle** (`NotificationServices.NotificationService`, `Emitters.Emitter`).
  The service keeps a map from username to that user's live server-sent-events emitter. `Subscribe` creates an
  open emitter with a `Long.MAX_VALUE` timeout and puts it under the username, replacing any earlier entry.
  `Subscribe` also registers three callbacks: completion, timeout and error. Each one removes the entry under
  the username it captured, so removal is by key only. A late callback from a superseded emitter therefore
  removes the newer entry. An emitter starts `Open` and ends in `Completed`, `TimedOut` or `Errored`. The first
  terminal signal wins, and a send on an ended emitter is refused with an IllegalStateException.
- **Dispatcher** (`EventHandlers.EventHandler`). `HandleEvent` loops over the recipients in order and calls
  `SendNotification` once for each. A recipient with no emitter is skipped. A recipient with an emitter gets one
  send. An IOException from that send completes the emitter with the error and is swallowed. Any other failure
  stops the loop and escapes. The loop is proved against `Dispatch`, a function of the emitters' states and
  events before the loop. The lemmas about `Dispatch` state what the fan-out promises.
- **Record store operations** (`NotificationService.CreateNotification`, `MarkAsRead`, `MarkAsUnread`, and the
  two recipient queries). The store is an in-memory map from id to record. The repository's two JPQL queries
  become filters on recipient membership and on the read flag.
- **Enum/string mapping** (`NotificationMapper`). Parsing upper-cases the text and then looks the constant up by
  name. Printing gives the lower-cased constant name. The record mappings copy fields and convert type and
  category.

The transport and the clock are inputs. `transport[i]` says whether the write to the i-th recipient's emitter
fails with an IOException. The creation time and the generated id are parameters of `CreateNotification`.

Files: `wrappers.dfy` (Option, Result), `models.dfy` (records and enums), `notification_mapper.dfy`,
`emitters.dfy`, `notification_service.dfy`, `event_handler.dfy`.

## Behaviour as written

Three behaviours of the code are easy to miss. The model follows the code:

- Only an IOException from a send is contained. A send on an emitter that has already ended throws an
  IllegalStateException, which escapes `handleEvent` and skips the remaining recipients. `RepeatedRecipientScenario`
  shows one way this happens: a recipient listed twice whose first send failed. This depends on
  `completeWithError` taking effect after a failed send; see the emitter transport line under "## Left out".
- A failed send does not remove the registry entry. The dispatcher only calls `completeWithError`; the entry goes
  when the container later runs one of the emitter's terminal callbacks.
- Subscribing again does not close the replaced emitter. The replaced emitter stays open, and its own callbacks
  later remove whatever entry is under the username.

## Model

| member | source | states |
|---|---|---|
| `NotificationServices.NotificationService.constructor` | src/main/java/com/cs203/smucode/services/impl/NotificationServiceImpl.java:26-32 | the registry starts empty; the store is the given one |
| `NotificationServices.NotificationService.Subscribe` | src/main/java/com/cs203/smucode/services/impl/NotificationServiceImpl.java:74-87 | the returned emitter is new and open, has no events, has timeout `Long.MAX_VALUE` and is owned by the user; the registry afterwards maps the user to it and every other key is unchanged; the store is unchanged |
| `NotificationServices.NotificationService.OnCompletion` | src/main/java/com/cs203/smucode/services/impl/NotificationServiceImpl.java:79 | the key the emitter was subscribed under is removed, whichever emitter it holds now; removal of an absent key is a no-op; the emitter ends as `Completed` unless it had already ended |
| `NotificationServices.NotificationService.OnTimeout` | src/main/java/com/cs203/smucode/services/impl/NotificationServiceImpl.java:80 | as the completion callback, ending as `TimedOut` |
| `NotificationServices.NotificationService.OnError` | src/main/java/com/cs203/smucode/services/impl/NotificationServiceImpl.java:81-84 | removal by key as above, then the emitter is completed with the error: `Errored` unless it had already ended |
| `NotificationServices.SubscribeTwiceScenario` | src/test/java/com/cs203/smucode/services/impl/NotificationServiceImplTest.java:194-203 | two subscriptions for one user give two distinct emitters; the registry has one entry, holding the second |
| `NotificationServices.SupersededCallbackScenario` | src/main/java/com/cs203/smucode/services/impl/NotificationServiceImpl.java:76-80 | the completion callback of a replaced emitter removes the newer entry, and the newer emitter stays open |
| `NotificationServices.RepeatedCallbacksScenario` | src/main/java/com/cs203/smucode/services/impl/NotificationServiceImpl.java:78-84 | timeout, then error, then completion on one emitter: the user stays unregistered, another user's entry survives, and the state stays `TimedOut` |
| `NotificationServices.ErrorThenSendScenario` | src/test/java/com/cs203/smucode/services/impl/NotificationServiceImplTest.java:205-226 | after the error callback the user is unregistered and a send on the emitter is refused with IllegalState |
| `Emitters.Emitter.constructor` | src/main/java/com/cs203/smucode/services/impl/NotificationServiceImpl.java:75 | a new emitter is open, has no events, and keeps its owner and timeout |
| `Emitters.Emitter.Send` | src/main/java/com/cs203/smucode/handlers/EventHandler.java:62-65 | one send as `Push` describes: refused on an ended emitter; on an open one, either one event is appended or an IOException leaves it unchanged |
| `Emitters.Emitter.Complete` | src/main/java/com/cs203/smucode/services/impl/NotificationServiceImpl.java:79 | the state becomes `Completed` unless already terminal; the events are unchanged |
| `Emitters.Emitter.Expire` | src/main/java/com/cs203/smucode/services/impl/NotificationServiceImpl.java:80 | the state becomes `TimedOut` unless already terminal; the events are unchanged |
| `Emitters.Emitter.CompleteWithError` | src/main/java/com/cs203/smucode/handlers/EventHandler.java:66 | the state becomes `Errored` unless already terminal; the events are unchanged |
| `Emitters.PushEffect` | src/main/java/com/cs203/smucode/handlers/EventHandler.java:62-67 | a send never changes the state; it is refused iff the emitter has ended; it delivers iff the emitter is open and the write succeeds; it appends exactly the one event or none |
| `Emitters.CloseAbsorbing` | src/main/java/com/cs203/smucode/services/impl/NotificationServiceImpl.java:78-84 | terminal states are absorbing: a second terminal signal of any cause changes nothing |
| `Emitters.Close` | src/main/java/com/cs203/smucode/services/impl/NotificationServiceImpl.java:81-84 | a terminal transition never yields `Open` |
| `EventHandlers.EventHandler.SendNotification` | src/main/java/com/cs203/smucode/handlers/EventHandler.java:52-68 | the registry and the store are unchanged; the registered emitters end as `SendStep` says: no emitter means nothing happens; otherwise one send, and an IOException completes that emitter with the error |
| `EventHandlers.EventHandler.constructor` | src/main/java/com/cs203/smucode/handlers/EventHandler.java:23-26 | the handler works on the given service |
| `EventHandlers.EventHandler.HandleEvent` | src/main/java/com/cs203/smucode/handlers/EventHandler.java:33-44 | the registry and the store are unchanged; the outcome, the calls made and the registered emitters' final states and events are those of `Dispatch` over the recipients in order |
| `EventHandlers.Dispatch` | src/main/java/com/cs203/smucode/handlers/EventHandler.java:37-43 | the set of registered users never changes; an escaped exception names a recipient of the list; one call is recorded per recipient processed, all of them unless an exception escaped |
| `EventHandlers.DispatchCalls` | src/main/java/com/cs203/smucode/handlers/EventHandler.java:52-68 | call i finds no emitter iff recipient i has no registry entry; call i is the one whose exception escaped iff the outcome names i |
| `EventHandlers.PropagationIsFinal` | src/main/java/com/cs203/smucode/handlers/EventHandler.java:37-43 | once an exception has escaped at some recipient, later recipients are not processed |
| `EventHandlers.PropagatedAtClosedEmitter` | src/main/java/com/cs203/smucode/handlers/EventHandler.java:62-67 | an escaped exception comes from a recipient whose emitter had already ended, after all earlier recipients were processed, and nothing changed at that recipient |
| `EventHandlers.DispatchLeavesOthers` | src/main/java/com/cs203/smucode/handlers/EventHandler.java:52-68 | a registered user not in the recipient list keeps its emitter's state and events |
| `EventHandlers.DispatchToOffline` | src/main/java/com/cs203/smucode/handlers/EventHandler.java:54-60 | when no recipient is registered, the loop finishes without error and changes nothing |
| `EventHandlers.DispatchToOpenDistinct` | src/main/java/com/cs203/smucode/handlers/EventHandler.java:37-43 | for distinct recipients with open emitters, the loop finishes, because IOExceptions are contained; an unregistered recipient is skipped; a registered one gets exactly one send of the message, which appends it or leaves the emitter `Errored` with its events unchanged |
| `EventHandlers.OnlineAndOfflineScenario` | src/main/java/com/cs203/smucode/handlers/EventHandler.java:54-64 | recipients alice and bob, only alice subscribed: alice's stream gets the message once, bob is skipped without error, and the record is still listed for bob |
| `EventHandlers.RepeatedRecipientScenario` | src/main/java/com/cs203/smucode/handlers/EventHandler.java:62-67 | a recipient listed twice whose first send fails: the emitter ends `Errored` and the second send's IllegalState escapes at index 1 |
| `NotificationServices.NotificationService.CreateNotification` | src/main/java/com/cs203/smucode/services/impl/NotificationServiceImpl.java:34-40 | the saved record is the given one with the generated id, `createdAt` set to now and `isRead` false, whatever the request said; every other field is the request's; it is stored under its id and nothing else changes |
| `NotificationServices.NotificationService.MarkAsRead` | src/main/java/com/cs203/smucode/services/impl/NotificationServiceImpl.java:52-59 | a missing id fails with EntityNotFound and the store is unchanged; otherwise only `isRead` of that record becomes true, and the updated record is returned |
| `NotificationServices.NotificationService.MarkAsUnread` | src/main/java/com/cs203/smucode/services/impl/NotificationServiceImpl.java:61-67 | as `MarkAsRead`, with `isRead` becoming false |
| `NotificationServices.NotificationService.GetNotificationsByUsername` | src/main/java/com/cs203/smucode/services/impl/NotificationServiceImpl.java:42-45 | exactly the stored records that name the user among their recipients |
| `NotificationServices.NotificationService.GetUnreadNotificationsByUsername` | src/main/java/com/cs203/smucode/services/impl/NotificationServiceImpl.java:47-50 | exactly the stored unread records that name the user among their recipients |
| `NotificationServices.ByUsername` | src/main/java/com/cs203/smucode/repositories/NotificationRepository.java:13-16 | recipient-membership filter over the store |
| `NotificationServices.UnreadByUsername` | src/main/java/com/cs203/smucode/repositories/NotificationRepository.java:18-21 | recipient-membership and `isRead = false` filter over the store |
| `NotificationServices.UnreadIsUnreadPartOfAll` | src/main/java/com/cs203/smucode/repositories/NotificationRepository.java:13-21 | the unread list is the unread part of the full list |
| `NotificationServices.ListedAfterSave` | src/main/java/com/cs203/smucode/services/impl/NotificationServiceImpl.java:34-50 | after a record is saved, each of its recipients finds it in the full list, and in the unread list when it is unread; when the id is new, that recipient's full list keeps every record it listed before |
| `NotificationServices.SaveUnderNewIdKeepsLists` | src/main/java/com/cs203/smucode/services/impl/NotificationServiceImpl.java:34-40 | saving a record under a new id drops nothing from any user's full list or unread list |
| `NotificationServices.ReadStateRoundTrip` | src/main/java/com/cs203/smucode/services/impl/NotificationServiceImpl.java:52-67 | after mark-read, the record appears in no unread list and stays in its recipients' full lists; mark-unread after mark-read restores a previously unread store exactly |
| `NotificationMapper.TypeValueOf` | src/main/java/com/cs203/smucode/mappers/NotificationMapper.java:29 | exact-name lookup: a found constant has that name; none found means no constant has it |
| `NotificationMapper.CategoryValueOf` | src/main/java/com/cs203/smucode/mappers/NotificationMapper.java:39 | exact-name lookup for categories, as above |
| `NotificationMapper.StringToNotificationType` | src/main/java/com/cs203/smucode/mappers/NotificationMapper.java:27-30 | success gives the constant whose name is the upper-cased input; failure is IllegalArgument carrying the upper-cased input, and happens only when no constant has that name |
| `NotificationMapper.StringToNotificationCategory` | src/main/java/com/cs203/smucode/mappers/NotificationMapper.java:37-40 | as for types, over categories |
| `NotificationMapper.NotificationTypeToString` | src/main/java/com/cs203/smucode/mappers/NotificationMapper.java:32-35 | a printed type is lower case, and upper-casing it gives the constant's name |
| `NotificationMapper.NotificationCategoryToString` | src/main/java/com/cs203/smucode/mappers/NotificationMapper.java:42-45 | a printed category is lower case, and upper-casing it gives the constant's name |
| `NotificationMapper.AlertPrintsLowerCase` | src/main/java/com/cs203/smucode/mappers/NotificationMapper.java:42-45 | the category `ALERT` prints as `"alert"` |
| `NotificationMapper.TournamentStartedPrintsLowerCase` | src/main/java/com/cs203/smucode/mappers/NotificationMapper.java:32-35 | the type `TOURNAMENT_STARTED` prints as `"tournament_started"` |
| `NotificationMapper.TypeRoundTrip` | src/main/java/com/cs203/smucode/mappers/NotificationMapper.java:27-35 | parsing a printed type gives the type back |
| `NotificationMapper.CategoryRoundTrip` | src/main/java/com/cs203/smucode/mappers/NotificationMapper.java:37-45 | parsing a printed category gives the category back |
| `NotificationMapper.TypeParsePrint` | src/main/java/com/cs203/smucode/mappers/NotificationMapper.java:27-35 | printing a parsed type gives the input in lower case |
| `NotificationMapper.CategoryParsePrint` | src/main/java/com/cs203/smucode/mappers/NotificationMapper.java:37-45 | printing a parsed category gives the input in lower case |
| `NotificationMapper.TypeParseIgnoresCase` | src/main/java/com/cs203/smucode/mappers/NotificationMapper.java:27-30 | inputs equal up to letter case parse alike; the lower- and upper-cased input parse like the input |
| `NotificationMapper.CategoryParseIgnoresCase` | src/main/java/com/cs203/smucode/mappers/NotificationMapper.java:37-40 | as for types |
| `NotificationMapper.TypeParseSucceedsIff` | src/main/java/com/cs203/smucode/mappers/NotificationMapper.java:27-35 | an input parses to a type iff it equals that type's printed form up to case |
| `NotificationMapper.CategoryParseSucceedsIff` | src/main/java/com/cs203/smucode/mappers/NotificationMapper.java:37-45 | an input parses to a category iff it equals that category's printed form up to case |
| `NotificationMapper.UnknownTypeRefused` | src/main/java/com/cs203/smucode/mappers/NotificationMapper.java:29 | an unknown name such as `INVALID_TYPE` is refused with an IllegalArgument error |
| `NotificationMapper.IncomingNotificationDTOToNotification` | src/main/java/com/cs203/smucode/mappers/NotificationMapper.java:17-19 | mapping succeeds iff both the type and the category parse; otherwise the error is the type's IllegalArgument if the type fails, else the category's; on success the result has no id, its type and category are the constants named by the upper-cased texts, and tournament id, tournament name, message, creation time, read flag and recipients are the request's |
| `NotificationMapper.NotificationToOutgoingNotificationDTO` | src/main/java/com/cs203/smucode/mappers/NotificationMapper.java:21-23 | id, tournament id, tournament name, message, creation time and read flag are copied; the type and category texts are the printed (lower-cased) constant names, which parse back to the entity's constants |
| `NotificationMapper.NotificationsToOutgoingNotificationDTOs` | src/main/java/com/cs203/smucode/mappers/NotificationMapper.java:25 | same length as the input, and element i is the outgoing form of input element i |
| `NotificationMapper.OutgoingIncomingRoundTrip` | src/main/java/com/cs203/smucode/mappers/NotificationMapper.java:17-23 | an outgoing record, sent back in with the same recipients, maps to the original entity except for the store-assigned id |

## Left out

- HTTP routing, token handling and response shaping (`NotificationController`, the security and project
  configuration, `ApiExceptionHandler`, `ApiException`): framework glue around the core.
- The unused SNS client (`AWSConfig`): a foreign SDK call.
- The validation annotations on the transfer records: they are enforced by the validation framework, not by
  repository code. Null inputs are not modelled.
- JSON serialisation (`OutgoingNotificationDTO.toJson`). The text form of the outgoing record (its `toString`) is
  not modelled either: `HandleEvent` receives that text as `message`.
- The repository internals. The store is a map and the two queries are filters. Query results are sets, because
  the order the database returns is unspecified. A failing save is not modelled.
- `NotificationServices.NotificationService.CreateNotification`: the source sets the creation time and the read
  flag on the argument object itself. Saving a new entity then assigns its id on that same object and returns it,
  and the controller goes on using the argument. This update in place and the aliasing between argument and result
  are not modelled: records are values, the argument is left unchanged, and only `saved` carries the id, the time
  and the read flag, so callers must use `saved`.
- `NotificationServices.NotificationService.CreateNotification`: the creation time and the generated id are
  parameters, and the id is required to be unused. The method also requires a record without an id. Its only
  caller passes the mapper's output, which never carries one.
- Concurrency of the registry map and of the emitter threads: each registry operation is one atomic step.
- Emitter transport internals. The outcome of each write is an input. When the container fires a terminal callback
  is not modelled: the callbacks are operations that may be invoked at any time. Whether a given framework
  version ignores `completeWithError` after a failed send is not modelled: completing with an error ends the
  emitter as `Errored`.
- Logging.
- The enum declarations (`constants/NotificationType.java`, `constants/NotificationCategory.java`) are not part of
  this model. The model declares the constants the rest of the source uses: `TOURNAMENT_STARTED` and `ALERT`.
  It assumes that `toString` is the constant's name.
- `NotificationMapper.StringToNotificationType`: upper-casing is modelled on ASCII letters only. Java's
  `toUpperCase` also maps other letters and depends on the default locale, so some non-ASCII inputs that Java
  accepts are refused here.
- `NotificationMapper.StringToNotificationCategory`: the same ASCII-only restriction.
- `NotificationMapper.NotificationTypeToString`: lower-casing is ASCII-only, as for parsing.
- `NotificationMapper.NotificationCategoryToString`: the same ASCII-only lower-casing.
