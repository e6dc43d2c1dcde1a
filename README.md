# Intent bridge of maid-ai-reader's Android host activity

The Android side of maid-ai-reader is one activity, `MainActivity`, that receives
"open with" (`ACTION_VIEW`) and "share" (`ACTION_SEND`) intents, turns the URI they
carry into a string and keeps it in one nullable field, `sharedFilePath`. The
Flutter side reads that field through the `getSharedFile` method of the
`com.maid/file_intent` method channel, which hands the value over and sets the
field back to null. Any other method name is answered "not implemented".

The model has four modules:

- `Wrappers` (wrappers.dfy): `Option`, standing for Kotlin's nullable types.
- `Android` (android.dfy): value stand-ins for `Uri` (scheme, string form, path)
  and `Intent` (action, data URI, MIME type, `EXTRA_STREAM` URI).
- `IntentBridge` (bridge.dfy): the constants of the activity. `PathFromUri` is the
  URI resolution. `Qualifies`/`Delivered` classify intents. `Step`/`Answer` give
  the effect of one event on the pending reference. The class `MainActivity` has
  the `sharedFilePath` field. Its methods `HandleIntent`, `OnCreate`,
  `OnNewIntent` and `OnMethodCall` update that field in place. Their `ensures`
  clauses tie the new field value and the reply to `Step` and `Answer`.
- `BridgeTrace` (trace.dfy): a run of the activity. Intents and channel calls
  arrive one at a time on the main thread, so a run is a sequence of events
  folded through `Step` (`Pending`). Lemmas over any run state the guarantees of
  the two-state machine (Empty / Pending) within one activity instance: the last
  write wins, a query clears the value, and no reference is handed over twice.

A VIEW intent whose URI has an unsupported scheme, or a file URI with no path,
stores the empty string rather than null (`MainActivity.kt:29` with `:60-61`).
The next `getSharedFile` therefore returns `""`. `Delivered` and `Step` model
this: such an intent qualifies and sets the pending value to `Some("")`.

## Model

| member | source | states |
|---|---|---|
| `IntentBridge.PathFromUri` | android/app/src/main/kotlin/com/example/maid_ai_reader/MainActivity.kt:57-62 | a `content` URI resolves to its full string form; a `file` URI to its path, or `""` when it has none; any other or missing scheme to `""` |
| `IntentBridge.NonEmptyPathOrigin` | android/app/src/main/kotlin/com/example/maid_ai_reader/MainActivity.kt:57-62 | the resolution is non-empty exactly when the URI is a content URI with a non-empty string form or a file URI with a non-empty path, and a non-empty result is that string or that path |
| `IntentBridge.Delivered` | android/app/src/main/kotlin/com/example/maid_ai_reader/MainActivity.kt:24-41 | an intent delivers a reference exactly when it is a VIEW with a data URI or a SEND of type exactly `application/pdf` with a stream URI (the independent predicate `Qualifies`), and the reference is the resolution of that URI |
| `IntentBridge.NonPdfShareIgnored` | android/app/src/main/kotlin/com/example/maid_ai_reader/MainActivity.kt:32-39 | a SEND intent of any other type delivers nothing, even when it carries a stream URI |
| `IntentBridge.Step` | android/app/src/main/kotlin/com/example/maid_ai_reader/MainActivity.kt:24-53 | a qualifying intent overwrites the pending reference with what it delivers; a `getSharedFile` call clears it; every other intent (null, other action, no URI, wrong type) and every other method leaves it unchanged |
| `IntentBridge.Answer` | android/app/src/main/kotlin/com/example/maid_ai_reader/MainActivity.kt:47-52 | a `getSharedFile` call is answered with a success carrying the pending value (null included); any other method name is answered "not implemented" |
| `IntentBridge.UnknownMethodRefused` | android/app/src/main/kotlin/com/example/maid_ai_reader/MainActivity.kt:47-52 | a method name other than `getSharedFile` is answered "not implemented" and leaves the pending reference as it was |
| `IntentBridge.TakeThenEmpty` | android/app/src/main/kotlin/com/example/maid_ai_reader/MainActivity.kt:48-50 | two `getSharedFile` calls in a row return the pending value, then null |
| `IntentBridge.MainActivity.constructor` | android/app/src/main/kotlin/com/example/maid_ai_reader/MainActivity.kt:12 | a new activity has no pending reference |
| `IntentBridge.MainActivity.HandleIntent` | android/app/src/main/kotlin/com/example/maid_ai_reader/MainActivity.kt:24-41 | after the call the field holds the resolution of the carried URI if the intent qualifies, and its old value otherwise, which is `Step` of the old value |
| `IntentBridge.MainActivity.OnCreate` | android/app/src/main/kotlin/com/example/maid_ai_reader/MainActivity.kt:14-17 | the cold-start entry point has exactly the effect of `HandleIntent` on the launching intent, which may be null |
| `IntentBridge.MainActivity.OnNewIntent` | android/app/src/main/kotlin/com/example/maid_ai_reader/MainActivity.kt:19-22 | the resume entry point has exactly the same effect as the cold-start one |
| `IntentBridge.MainActivity.OnMethodCall` | android/app/src/main/kotlin/com/example/maid_ai_reader/MainActivity.kt:46-54 | `getSharedFile` replies with the old pending value and leaves the field null; any other name replies "not implemented" and leaves the field unchanged |
| `BridgeTrace.Pending` | android/app/src/main/kotlin/com/example/maid_ai_reader/MainActivity.kt:24-53 | a non-null pending reference after any run is the one pending at its start or the reference of one of its qualifying intents: the bridge never invents a reference |
| `BridgeTrace.PendingAppend` | android/app/src/main/kotlin/com/example/maid_ai_reader/MainActivity.kt:24-53 | running two parts of a run one after the other is the same as running the whole run |
| `BridgeTrace.PendingUnchanged` | android/app/src/main/kotlin/com/example/maid_ai_reader/MainActivity.kt:25-40 | a run of non-qualifying intents and non-`getSharedFile` calls leaves the pending reference unchanged |
| `BridgeTrace.StaysEmpty` | android/app/src/main/kotlin/com/example/maid_ai_reader/MainActivity.kt:48-50 | once empty, the bridge stays empty through any number of queries and non-qualifying intents |
| `BridgeTrace.LastWriteWins` | android/app/src/main/kotlin/com/example/maid_ai_reader/MainActivity.kt:29-36 | after a qualifying intent that no later qualifying intent or query follows, exactly its reference is pending; all earlier ones are lost |
| `BridgeTrace.ClearedAfterQuery` | android/app/src/main/kotlin/com/example/maid_ai_reader/MainActivity.kt:48-50 | after a `getSharedFile` call that no qualifying intent follows, nothing is pending |
| `BridgeTrace.NeverRedelivered` | android/app/src/main/kotlin/com/example/maid_ai_reader/MainActivity.kt:49-50 | a `getSharedFile` call that follows an earlier one with no qualifying intent in between answers null, so within one activity instance no reference is handed over twice |
| `BridgeTrace.SecondIntentWins` | android/app/src/main/kotlin/com/example/maid_ai_reader/MainActivity.kt:29-36 | two qualifying intents and then a query: the query returns the second reference only |
| `BridgeTrace.DeliveriesBounded` | android/app/src/main/kotlin/com/example/maid_ai_reader/MainActivity.kt:46-54 | within one activity instance, a run hands over no more non-null references than its qualifying intents brought in, plus the one pending at its start |

## Left out

- Activity lifecycle plumbing: the calls to `super.onCreate`, `super.onNewIntent` and `super.configureFlutterEngine` are platform code; `OnCreate` and `OnNewIntent` model only their call to `handleIntent`, and `savedInstanceState` is not modelled.
- Activity recreation: a recreated activity starts with a null field and its `onCreate` handles `getIntent()` again (`MainActivity.kt:16`); since `onNewIntent` never calls `setIntent`, that is the original launch intent, so the same reference can be handed over again. The run lemmas (`NeverRedelivered`, `DeliveriesBounded`) hold within one activity instance only.
- Channel wiring: creating the `MethodChannel` on the engine's binary messenger under `com.maid/file_intent` (the constant `Channel`) is not modelled. The `result` callback object is replaced by the `Reply` value that `OnMethodCall` returns.
- Android URI parsing and intent extras: `Uri.scheme`, `Uri.path`, `Uri.toString` and `getParcelableExtra(EXTRA_STREAM)` are foreign library calls. Their results are fields of the `Uri` and `Intent` values. Intent actions are reduced to VIEW, SEND and any other action, including a missing one.
- Threading: all calls arrive one at a time on the main thread, so the model is sequential and has no locking.
- File contents: the activity never opens or reads the file it refers to, and neither does the model.
