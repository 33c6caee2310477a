# k8s-example-crd controller and notifiers, modelled in Dafny

This project models the sequential core of a Kubernetes controller for the
`Canary` custom resource, and the chat notifiers it can post through:

- **Controller** (`controller.dfy`). The informer's add, update and delete
  handlers; `enqueue`; the sync handler; one worker step
  (`processNextWorkItem`); and `recordEventInfof`. The `Controller` class
  holds the snapshot table (a `sync.Map` from `"name.namespace"` to Canary in
  the source), the work queue, and a ghost log of the events handed to the
  event recorder. A second ghost log holds the info lines that
  `recordEventInfof` writes. The pure function `Handle` gives the effect of
  each handler on the table and the queue. The handler methods are proved
  against it, and lemmas about it cover whole streams of notifications. The
  class invariant `Valid` says three things: every table entry sits under its
  own `"name.namespace"`; every event is a `Normal` event with reason
  `"Synced"`; and every event was logged with the same text.
- **Work queue** (`workqueue.dfy`). client-go's rate-limiting queue, reduced
  to what the controller relies on: a pending sequence, the multiset of items
  handed out by `Get` and not yet released by `Done`, the shut-down flag, and
  a ghost log of every call.
- **Canary** (`canary.dfy`). The resource's metadata and spec, with the
  replica count as a 32-bit integer.
- **Notifiers** (`payload.dfy`, `slack.dfy`, `rocket.dfy`, `factory.dfy`).
  The constructors `NewSlack` and `NewRocket` validate the URL, then the
  username, then the channel. Each `Post` builds a Slack-shaped payload. The
  factory picks a notifier by provider name and falls back to the no-op
  notifier.

Client-go's key functions (`MetaNamespaceKeyFunc`, `SplitMetaNamespaceKey`),
`url.ParseRequestURI` and `postMessage` are not part of this model. They enter
as function values: the controller receives them when it is built, and the
notifier functions take them as parameters. Every property holds whatever
those functions compute. `fmt.Sprintf` enters as a function value only for
`recordEventInfof`'s template. The fixed `"%s.%s"` key, the author names and
the error formats are written as concatenation, which is what `%s` and `%w`
produce for strings and errors; `DottedNameInjective` relies on that concrete
format. The lister is a map from
(namespace, name) to Canary, so a lookup either finds the object or does not.

In three places the code does something a reader of a typical controller
might not expect; the model follows the code:

- The sync handler never returns an error. A key that does not split and an
  object the lister no longer has are both dropped with a nil result. The
  worker never re-adds an item.
- Queue keys come from `MetaNamespaceKeyFunc`. Snapshot keys are
  `"name.namespace"`, built by the controller itself. The two are different
  strings.
- `Slack.Post` discards the error from `postMessage` and always returns nil.
  `Rocket.Post` returns it wrapped.

## Model

| member | source | states |
|---|---|---|
| `Controller.CheckCustomResourceType` | pkg/controller/controller.go:188-196 | the type test succeeds exactly on Canaries and then yields that Canary; otherwise it yields the zero Canary |
| `Controller.DottedNameInjective` | pkg/controller/controller.go:96-102 | when namespaces hold no dot, two Canaries with the same `"name.namespace"` key have the same name and namespace |
| `Controller.DeleteRemovesOnlyThatCanary` | pkg/controller/controller.go:96-102 | in a keyed table with dot-free namespaces, deleting a Canary drops an entry exactly when it holds a Canary with that name and namespace; every other entry stays |
| `Controller.Handle` | pkg/controller/controller.go:80-103 | handlers never add or overwrite table entries. An add enqueues the object's key with no type test. An update enqueues the new key only when both objects are Canaries and their resource versions differ; otherwise nothing changes. A Canary delete removes exactly its `"name.namespace"` entry and leaves the queue alone. Any other delete changes nothing |
| `Controller.HandleSeparates` | pkg/controller/controller.go:80-103 | one handler step removes at most the deleted Canary's key from the table and appends at most one key to the queue |
| `Controller.HandleAllSeparates` | pkg/controller/controller.go:80-103 | for any stream of notifications, the table ends as the initial table minus the keys of the deleted Canaries, in any order, and the queue ends as the initial queue plus the keys of the adds and version-changing updates, in order |
| `Controller.HandleAllKeepsKeyed` | pkg/controller/controller.go:96-102 | no stream of notifications creates a table entry or breaks the invariant that each entry is stored under its own key |
| `Controller.Synced` | pkg/controller/controller.go:167-186 | a sync writes nothing when the key does not split or the lister lacks the object. Otherwise it stores the found object under its `"name.namespace"` and leaves every other entry as it was |
| `Controller.SyncIdempotent` | pkg/controller/controller.go:179-185 | syncing the same key twice against the same lister leaves the same table as syncing it once |
| `Controller.SyncKeepsKeyed` | pkg/controller/controller.go:181 | a sync keeps every entry stored under its own key |
| `Controller.Controller.constructor` | pkg/controller/controller.go:65-78 | a new controller has an empty table, an empty running queue and no events, and keeps the key, split and format functions it is given |
| `Controller.Controller.Enqueue` | pkg/controller/controller.go:201-209 | the object's key goes through `AddRateLimited` and is appended unless the queue is shutting down; when the key function fails nothing is added. The table and events are untouched (frame) |
| `Controller.Controller.OnAdd` | pkg/controller/controller.go:81 | on a running queue the new state is `Handle` of an add: exactly the object's key is appended, through the rate-limited path, with no filtering. On a queue that is shutting down the add is dropped and the state is unchanged |
| `Controller.Controller.OnUpdate` | pkg/controller/controller.go:82-95 | on a running queue the new state is `Handle` of an update; on a queue that is shutting down the state is unchanged. When either object is not a Canary, or the versions are equal, the queue, its call log and the table are unchanged |
| `Controller.Controller.OnDelete` | pkg/controller/controller.go:96-102 | the new state is `Handle` of a delete. Only the table may change; the queue is outside the frame |
| `Controller.Controller.RecordEventInfof` | pkg/controller/events.go:9-14 | appends exactly one event, of type Normal and reason "Synced", whose message is the template formatted with the arguments. It logs that same text tagged with `"name.namespace"`, and changes nothing else, so no notifier is called |
| `Controller.Controller.SyncHandler` | pkg/controller/controller.go:167-186 | always returns nil. An unsplittable key or a missing object leaves the table and events unchanged. A found object is stored under its key, and exactly one event is appended |
| `Controller.Controller.ProcessNextWorkItem` | pkg/controller/controller.go:131-164 | returns false exactly when `Get` reports shutdown, and then changes nothing else. Otherwise it syncs string items and calls Forget then exactly one Done on the item. The in-flight multiset returns to what it was |
| `WorkQueue.RateLimitingQueue.constructor` | pkg/controller/controller.go:71 | a new queue is empty, running, and has no items in flight |
| `WorkQueue.RateLimitingQueue.AddRateLimited` | pkg/controller/controller.go:208 | appends the item to the pending sequence, unless the queue is shutting down, in which case the item is dropped; the call is logged either way |
| `WorkQueue.RateLimitingQueue.Get` | pkg/controller/controller.go:132-136 | reports shutdown exactly when the queue is drained and shutting down. Otherwise it hands out the head and marks it in flight |
| `WorkQueue.RateLimitingQueue.Done` | pkg/controller/controller.go:139 | releases one in-flight occurrence of the item |
| `WorkQueue.RateLimitingQueue.Forget` | pkg/controller/controller.go:143 | records the call and changes no queue contents |
| `WorkQueue.RateLimitingQueue.ShutDown` | pkg/controller/controller.go:110 | sets the shutting-down flag, logs the call, and leaves pending and in-flight items as they were |
| `Payload.ToSlackFields` | pkg/notifier/slack.go:70-77 | the Slack fields have the same length and order as the input fields, with Title = Name, Value = Value and Short = false |
| `Payload.FieldsRoundTrip` | pkg/notifier/slack.go:70-77 | the field conversion loses nothing: every name and value is recovered, in order |
| `SlackNotifier.NewSlack` | pkg/notifier/slack.go:38-56 | succeeds exactly when the URL is a request URI and the username and channel are non-empty, and keeps all three. Otherwise it fails with the message of the first failing check, in the order URL, username, channel |
| `SlackNotifier.Slack.Post` | pkg/notifier/slack.go:58-92 | the payload posted has the receiver's channel and username, icon `:rocket:` and one attachment. The colour is "danger" exactly when severity is "error", else "good". The author is workload "." namespace, the text is the message, mrkdwn is ["text"], and the fields are the converted input fields. That payload is the one handed to `postMessage` at the receiver's URL, and it returns nil even when `postMessage` fails |
| `RocketNotifier.NewRocket` | pkg/notifier/rocket.go:15-34 | succeeds exactly when the URL is a request URI and the username and channel are non-empty, and keeps all three. Otherwise it fails with the first failing check's own message, in the order URL, username, channel |
| `RocketNotifier.Rocket.Post` | pkg/notifier/rocket.go:36-68 | the same payload as Slack's, but the colour is "#FF0000" exactly when severity is "error", else "#0076D7". It returns the wrapped error exactly when `postMessage` fails |
| `NotifierFactory.NewFactory` | pkg/notifier/factory.go:11-17 | stores URL, username and channel exactly as given |
| `NotifierFactory.Factory.Notifier` | pkg/notifier/factory.go:19-38 | an empty URL gives the no-op notifier and no error, whatever the provider. "slack" and "rocket" give the result of their constructor on the factory's fields. Any other provider gives "provider %s not supported". Whenever there is an error the notifier is the no-op one. There is no error exactly when the URL is empty, or the provider is known and its constructor's checks pass |

## Left out

- `Controller.Run` (pkg/controller/controller.go:108-129): the worker goroutines, `wait.Until`, crash recovery and blocking on the stop channel are concurrency. A single worker step is modelled.
- Controller.Controller.ProcessNextWorkItem: requires a queue that is non-empty or shutting down. On an empty, running queue the real `Get` blocks, and a sequential step covers only calls that return.
- WorkQueue.RateLimitingQueue.AddRateLimited: appends at once (or drops the item after shutdown). Deduplication, at-most-one-in-flight per key and the backoff delay belong to client-go, which is not part of this model.
- WorkQueue.RateLimitingQueue.Forget: records the call only. The rate limiter's failure history is not modelled.
- Retry on error: the sync handler never fails, and the worker never re-adds an item, so no retry path exists to model.
- Lister errors other than not-found: the source goes on to use the missing object. The lister is modelled as found or not found.
- The race between a delete and a concurrent sync that stores the entry again: this is concurrency. In sequence, a sync after a delete simply stores the entry again.
- The event broadcaster setup (pkg/controller/controller.go:55-63), and the clients, sync window, notifier and webhook fields the controller carries but never uses in the modelled code.
- Controller.Controller.RecordEventInfof: the info line is modelled as the template formatted with the arguments. zap's `Infof` logs the template unformatted when there are no arguments, and uses `Sprint` when the template is empty. At the only call site (pkg/controller/controller.go:179, two arguments) the logged text and the event message are the same.
- Logging, except the info line of `recordEventInfof`: the `HandleError` reports, the "Deleting" and "Synced" lines, and the type-check error line are I/O with no effect on state.
- `MetaNamespaceKeyFunc`, `SplitMetaNamespaceKey`, `url.ParseRequestURI` and `postMessage` are foreign calls, and enter only as function values. `fmt.Sprintf` enters as a function value only for `recordEventInfof`'s template; its other uses in the modelled code have fixed formats, written as concatenation. `postMessage` is modelled by the error it returns; its HTTP effect is not modelled.
- SlackNotifier.Slack.Post: returns the payload handed to `postMessage` as an extra out-parameter `sent`, so that its contents can be stated, and what `postMessage` returned for it as a second extra out-parameter `postResult`, since the source drops that error.
- RocketNotifier.Rocket.Post: returns the payload handed to `postMessage` as an extra out-parameter `sent`, so that its contents can be stated.
- JSON serialisation of the payload types; only their values are modelled.
- `notifier.Interface`, `notifier.Field` and the no-op notifier's `Post` are declared in a file that is not part of this model. The model gives them the shape the modelled code uses.
- cmd/example/main.go, pkg/server/server.go and pkg/logger/logger.go: bootstrapping, the HTTP metrics and health server, and logger setup are I/O.
