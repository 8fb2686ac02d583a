# AI Assistant integration — a Dafny model

This project models the logic of a small home-automation integration. The
integration exposes an "AI assistant" as sensors and services. Its core is a
conversation-state coordinator with four fields: a status flag (`online`,
`thinking`, `error`), the last response, a conversation counter and an
availability flag. The model covers:

- `common.dfy`, module `AssistantData`: the framework's dictionary values
  (`Value`, with Python truthiness), the configuration entry, the status flag,
  the observable `State`, and the snapshot dictionary the coordinators publish.
- `openai_coordinator.dfy`, module `OpenAiCoordinator`: the coordinator that
  asks a chat-completion client. It is a class whose `AskQuestion` updates the
  fields step by step around the call. The pure functions `Ask` and `AskAll`
  specify one question and a run of questions.
- `coordinator.dfy`, module `SimCoordinator`: the simulated coordinator that
  the integration's services drive. It is a class with `UpdateConversation`,
  the snapshot, and the framework refresh that fills `coordinator.data`.
- `integration.dfy`, module `Integration`: the `ask_question` and `reset`
  service handlers, and the `hass.data` registry kept by entry setup and unload.
- `config_flow.dfy`, module `ConfigFlow`: the two-step configuration flow. It
  has validation and error maps as pure functions, and a `Flow` class that
  keeps the first step's data.
- `sensor.dfy`, module `SensorPlatform`: the three sensor descriptions, unique
  ids and names, and the value and attribute lookups with their defaults.

The external chat call is abstract. `AskQuestion` takes a function from the
client settings and the question to an `Outcome`: `Success(text)` or
`Failure(message)`. Each listener notification is recorded in a log
(`notified`) together with the field values at that moment. The log shows
when notifications are issued relative to the field writes. It does not show
what listeners display. The event that
`handle_ask_question` fires is returned as a value. The current time is a
parameter.

The only listeners in the integration are the sensors. They read
`coordinator.data`, the dictionary of the latest refresh, not the fields.
Neither `ask_question` nor `update_conversation` assigns `data`. So after a
notification the sensors still show the previous refresh: they never show
`thinking`, and after a question they show the old count and response until
the next refresh. `HandleAskQuestion` keeps `data` unchanged, and
`SensorsLagBehindQuestion` proves that on that dictionary the sensors show
the count from before the question.

Two further facts about the source are visible in the model. First, the services
registered at setup capture the coordinator of the entry being set up.
`Hass.serviceTarget` therefore always names the most recently set-up
coordinator, and the service calls `CallAskQuestion` and `CallReset` act on
it alone. Unload does not change it. Second, in the API-backed
coordinator, `available` is never set to false. An unconfigured client
shows up only in the snapshot's `available` entry.

## Model

| member | source | states |
|---|---|---|
| `OpenAiCoordinator.ConfigureClient` | examples/openai-integration-example.py:39-51 | A client exists exactly when the entry's `api_key` is truthy. Its model defaults to "gpt-3.5-turbo" and its system prompt to the fixed home-automation prompt. |
| `OpenAiCoordinator.Coordinator.constructor` | examples/openai-integration-example.py:25-51 | A new coordinator has count 0, "Ready", `online`, is available, and its client comes from the entry data. |
| `OpenAiCoordinator.Coordinator.UpdateData` | examples/openai-integration-example.py:53-64 | The snapshot has exactly the five keys. It copies status, last response and count verbatim. It reports `available` as `available && client present`, stamps the given time, and changes nothing. |
| `OpenAiCoordinator.Ask` | examples/openai-integration-example.py:74-97 | Success: count + 1, status online, and the answer is the text. Failure: the answer is "Errore: " + message, status error, count unchanged. In both cases the stored response equals the answer, status is never thinking and availability is unchanged. |
| `OpenAiCoordinator.Coordinator.AskQuestion` | examples/openai-integration-example.py:69-97 | Without a client: returns the exact warning and changes no field and no notification. With one: the result and new state are `Ask` of the old state and the call's outcome. A notification is issued with status thinking before the call, and another after the final field values are written. The status is never left at thinking. |
| `OpenAiCoordinator.AskAll` | examples/openai-integration-example.py:69-97 | Over any run of questions the count never decreases. It grows by exactly the number of successful calls. Availability is unchanged. The final status is that of the last call. |
| `OpenAiCoordinator.AskAllThenAsk` | examples/openai-integration-example.py:69-97 | One more `ask_question` after a run gives the state of the run extended by that outcome. So `AskAll` describes every sequence of calls. |
| `SimCoordinator.Coordinator.constructor` | home-assistant-integration/custom_components/ai_assistant/coordinator.py:20-32 | A new coordinator has count 0, "Ready", `online` and is available. It has no data yet and no notifications. |
| `SimCoordinator.Coordinator.UpdateData` | home-assistant-integration/custom_components/ai_assistant/coordinator.py:34-47 | The snapshot has exactly the five keys. It copies all four fields verbatim and stamps the given time. |
| `AssistantData.SnapshotsDifferOnlyInTimestamp` | home-assistant-integration/custom_components/ai_assistant/coordinator.py:39-45 | Two snapshots of the same fields agree on every key except `last_update`. |
| `SimCoordinator.Coordinator.Refresh` | home-assistant-integration/custom_components/ai_assistant/coordinator.py:34-47 | After a refresh, `data` is the snapshot for that time, and one notification of the current fields is logged. |
| `SimCoordinator.Coordinator.UpdateConversation` | home-assistant-integration/custom_components/ai_assistant/coordinator.py:52-56 | The count rises by exactly 1 and the last response is the given one. Status and availability are unchanged. The notification is issued after the fields are updated, and `data` is not touched. |
| `SimCoordinator.AfterUpdates` | home-assistant-integration/custom_components/ai_assistant/coordinator.py:52-56 | Over any run of updates the count grows by the number of updates, so it never decreases. The last response is the last one given. Status and availability are unchanged. |
| `SimCoordinator.AfterUpdatesThenUpdate` | home-assistant-integration/custom_components/ai_assistant/coordinator.py:52-56 | One more `update_conversation` after a run gives the run extended by that response. |
| `Integration.HandleAskQuestion` | custom_components/ai_assistant/__init__.py:27-39 | A missing question is the empty string. The response is exactly "Risposta alla domanda: " + question. It is stored with the count + 1. The returned `ai_assistant_response` event carries that same question and response. |
| `Integration.SensorsLagBehindQuestion` | custom_components/ai_assistant/__init__.py:34 | On the dictionary of the last refresh, which a question leaves unchanged, the count sensor shows the count from before the question, not the new one. The response sensor shows the old response. |
| `Integration.Hass.CallAskQuestion` | custom_components/ai_assistant/__init__.py:27-39 | A service call runs the question handler on the coordinator captured by the latest setup, with the effects of `HandleAskQuestion`. Before any setup nothing happens. |
| `Integration.Hass.CallReset` | custom_components/ai_assistant/__init__.py:41-48 | A service call resets the coordinator captured by the latest setup, with the effects of `HandleReset`. Before any setup nothing happens. |
| `Integration.QuestionOfAnswer` | custom_components/ai_assistant/__init__.py:33 | It recovers the question exactly from texts that start with the answer prefix, and only from those. |
| `Integration.AnswerRoundTrip` | custom_components/ai_assistant/__init__.py:33-39 | The simulated answer determines its question, so the event's response matches its question. |
| `Integration.HandleReset` | custom_components/ai_assistant/__init__.py:41-45 | Whatever the prior state: count 0 and `last_response` "Reset", with status and availability untouched. Then a refresh publishes the new fields. |
| `Integration.Hass.SetupEntry` | custom_components/ai_assistant/__init__.py:17-52 | Returns true. The domain map is created if absent (`setdefault`). It gains the entry id mapped to a fresh, refreshed coordinator, and every other entry stays as it was. The services target the new coordinator. |
| `Integration.Hass.UnloadEntry` | custom_components/ai_assistant/__init__.py:55-61 | Returns the platform unload result. Only on success is the entry id removed, and every other entry stays. Removing an entry id that is not registered raises KeyError, and the map is unchanged. |
| `ConfigFlow.ValidateInput` | examples/config-flow-with-api-key.py:42-51 | Fails with `InvalidApiKey` exactly when the provider is "openai" and the key is missing or falsy. Otherwise it succeeds exactly when a name is present, with title = name. A missing name raises an unexpected error. It never reports `CannotConnect`. |
| `ConfigFlow.UserErrorCodesDistinct` | examples/config-flow-with-api-key.py:77-83 | The codes "cannot_connect", "invalid_api_key" and "unknown" are distinct per failure. |
| `ConfigFlow.Flow.constructor` | examples/config-flow-with-api-key.py:59-61 | A new flow has empty `user_data`. |
| `ConfigFlow.Flow.StepUser` | examples/config-flow-with-api-key.py:63-91 | No input: only the user form, and nothing is stored. Valid input: it is stored as `user_data` and the API form follows. Invalid input: the user form again with `errors["base"]` set to the failure's code, and `user_data` unchanged. |
| `ConfigFlow.ApiErrors` | examples/config-flow-with-api-key.py:102-116 | `api_key` = "invalid_api_key" exactly for provider "openai" with the key missing, falsy or shorter than 10 characters. `api_url` = "required" exactly for provider "custom" without a truthy URL. `base` = "unknown", alone, exactly when an "openai" key is truthy but not text (`len` raises). |
| `ConfigFlow.Merge` | examples/config-flow-with-api-key.py:120 | The merge holds the keys of both maps, and the step input wins on shared keys. |
| `ConfigFlow.DefaultProviderIsOpenAi` | examples/config-flow-with-api-key.py:32-39 | With the API schema's defaults applied, any input that names no provider gets exactly the errors it would get with provider "openai". |
| `ConfigFlow.DefaultProviderChecksKey` | examples/config-flow-with-api-key.py:32-39 | A consequence: with no provider named, an empty key is rejected as "invalid_api_key". |
| `ConfigFlow.DefaultNameTitlesEntry` | examples/config-flow-with-api-key.py:24-29 | With the user schema's defaults applied, input that gives no name and is accepted on its key validates with the title "AI Assistant". |
| `ConfigFlow.Flow.StepApi` | examples/config-flow-with-api-key.py:93-132 | No input: only the API form. Errors: the API form with exactly those errors. No errors: abort if already configured; otherwise create an entry whose data is the merge of `user_data` and the input, titled with the merged name (KeyError if there is none). An entry is created only when the error map is empty. |
| `SensorPlatform.NewSensor` | custom_components/ai_assistant/sensor.py:50-59 | The unique id is entry id + "_" + key and the name is "AI Assistant " + the description's name. |
| `SensorPlatform.UniqueIdInjective` | custom_components/ai_assistant/sensor.py:13-59 | Equal unique ids imply the same entry id and the same description: the ids are unique within an entry and across entries. |
| `SensorPlatform.PlatformSensors` | custom_components/ai_assistant/sensor.py:33-44 | There is one sensor per description, in order, and the three sensors of an entry have pairwise distinct unique ids. |
| `SensorPlatform.NativeValue` | custom_components/ai_assistant/sensor.py:61-74 | `status` gives the data's entry or "unknown". `conversation_count` gives it or 0. `last_response` gives it or "No response yet". Any other key gives "unknown". |
| `SensorPlatform.ExtraStateAttributes` | custom_components/ai_assistant/sensor.py:76-83 | Exactly `last_update`, passed through (None when absent), and `available`, which defaults to true. |
| `SensorPlatform.SensorsShowSnapshot` | custom_components/ai_assistant/sensor.py:61-83 | On a coordinator snapshot the sensors show the fields verbatim and no default is used. The attributes carry its time and availability. |
| `SensorPlatform.SensorsShowDefaults` | custom_components/ai_assistant/sensor.py:61-83 | For any data dictionary: a missing status, count or response key shows "unknown", 0 or "No response yet". A missing `last_update` gives None and a missing `available` gives true. No coordinator snapshot lacks any of these keys. |

## Left out

- The body of `_call_openai`: it is a foreign library, network I/O and a floating-point temperature. The outcome of the call is a parameter; the 300-token limit and the whitespace trim are not modelled.
- Concurrency: the executor offload and the `await` suspension. Each ask is one atomic transition, so overlapping asks are not modelled.
- Logging, and the `UpdateFailed` wrapping of the snapshot: building the dictionary cannot fail.
- Timers and the update interval: a refresh is modelled only where setup (first refresh) and reset (`async_request_refresh`) ask for one. The request is taken as immediate; debouncing is not modelled.
- Listener fan-out: modelled as a log of the fields each notification showed, not as the framework's listener callbacks.
- Service registration and the event bus: the handlers are methods that take the coordinator they captured, and the event is the returned value.
- `async_forward_entry_setups` and platform unloading: setup forwarding has no effect in the model, and the unload result is a boolean parameter.
- A first refresh that fails during setup is not modelled, since the snapshot cannot fail.
- `coordinator.data` before the first refresh: it is `None` in the framework, and a sensor reading it would raise. The model uses an empty map as a stand-in. Sensors are created only after that refresh, so the stand-in is never read.
- Form rendering, the schemas' type checks and required-field checks, and `async_set_unique_id`. Only the schema defaults are modelled, and whether an entry already exists is a parameter of `StepApi`.
- `Integration.HandleAskQuestion`: the question is taken to be text. The `str()` rendering of a non-text question inside the f-string is not modelled.
- `custom_components/ai_assistant/const.py`: its constants are written out where they are used.
