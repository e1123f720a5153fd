# Capture-worker control protocol, modelled in Dafny

This project models the core of a real-time video capture and analysis application. A control
context (the realtime mode handler) starts, mode-switches and stops a worker process (the
capture service's loop). The worker owns the camera and streams feature packets and video frames
back over queues, with a status side channel. The worker must never block capture on a slow
consumer.

Everything is seen from one sequential context at a time:

- `Channels` models `multiprocessing.Queue` as a FIFO with a `maxsize` and a non-blocking get.
  It models `multiprocessing.Event` as a boolean. No one drains a queue while a put waits out its
  timeout, so a put on a full queue raises `queue.Full`.
- `CaptureServices` models `services/capture_service.py`. The `CaptureService` class holds the
  lifecycle state: the `running` event, the process handle, and counts of spawns, joins and
  terminations. A ghost set holds the spawned processes that may still be alive, and the class
  invariant keeps it inside the held process, so at most one worker per service is alive. The worker loop `_run_capture_loop` is specified by the functions `Iterate`
  (one loop body), `RunLoop` and `Run`. The method `RunCaptureLoop` runs the loop in place on
  three `Channel` objects and is proved to leave them as `Run` says; its body is the method
  `RunIteration`, proved against `Iterate`, whose early returns are the loop's `continue`s. What each iteration reads
  is an input (a `Tick`): the two events, which the control context writes concurrently, and
  the answer of `process_one_frame` or `get_frame`. The method may modify only the three queues,
  so the worker cannot set or clear either event.
- `VideoSources` models `services/video_source.py`. It covers the coercion of digit strings to
  device indices and the 3-attempt open loop. The caller gives the `isOpened()` answer for each
  attempt, and the 0.5 s sleeps are counted. It also covers the guarded `get_frame` and
  `release`.
- `RealtimeHandlers` models `app/mode_handler/realtime_handler.py`. The class covers mode
  selection and deselection, the analysis start and stop, and the non-blocking polls.
  `get_next_data_packet` keeps the `ID_` registry with extend-then-sort. Python's `list.sort` on
  strings is modelled by an insertion sort over code-point order. `SortedIsUnique` shows that
  the result is the only ascending ordering, so it is the same list Python's sort produces.
- `Config` models `core/config_manager.py`. It covers the four configuration records and their
  defaults, `from_dict`, `asdict`, and the `ConfigManager`'s `load_config`/`save_config` effects.
  The JSON file is abstracted to `Missing`, `Unreadable` or a parsed JSON value, and a write to
  it either succeeds or fails. Dataclasses do not check field types, so every field holds a
  JSON value.

Behaviours of the code worth noting, all of which the model follows:

- `stop()` on a service with no process still clears `running`, so it is not a pure no-op
  (services/capture_service.py:38).
- Only a truthy (non-empty) feature packet is written to the data queue, not every packet
  produced (services/capture_service.py:64-65).
- The open loop also waits after the third failed attempt. A device that never opens costs
  three waits, not two (services/video_source.py:29-37).
- A `queue.Full` on the data queue skips the rest of the iteration: the frame write and the
  1 ms yield (services/capture_service.py:82-84).
- `orchestrator.release()` is called only after the loop. A failed initialisation releases
  nothing (services/capture_service.py:53-56 and 93).
- `on_mode_selected()` replaces a held capture service without stopping it
  (app/mode_handler/realtime_handler.py:29-30). Selecting the mode twice without deselecting
  it leaves the first worker running beside the second.

## Model

| member | source | states |
|---|---|---|
| `Config.DefaultAppConfig` | core/config_manager.py:8-30 | `AppConfig()` is what `from_dict` builds from an empty dict; the fields are the declared defaults ("all", true, "0", the two model paths, "cpu", 1000, 30) |
| `Config.FromDict` | core/config_manager.py:32-38 | fails exactly when the data is not a dict, or a present section is not a mapping or has unknown keywords; otherwise each field is the given value if its section and key are present, else its default |
| `Config.FromDictAsDict` | core/config_manager.py:33-38 | `from_dict(asdict(c)) == c`: what `save_config` writes, `load_config` reads back unchanged |
| `Config.MissingSectionIsDefault` | core/config_manager.py:35-37 | a section absent from the data yields that section's default record |
| `Config.ConfigManager.constructor` | core/config_manager.py:41-43 | the initial configuration is what `load_config` yields: defaults (saved if the file is missing) or the parsed file |
| `Config.ConfigManager.SaveConfig` | core/config_manager.py:70-78 | memory is updated to the given config even when the write fails; a successful write stores its dict form |
| `Config.ConfigManager.LoadConfig` | core/config_manager.py:49-68 | missing file: defaults returned, assigned and saved; unreadable file: defaults returned, `config` untouched; readable file: `from_dict` result returned and assigned, or its exception propagated |
| `Config.RealtimeAsDict` | app/mode_handler/realtime_handler.py:26-27 | `asdict` of the realtime section has exactly the four declared field names, which that section's `**` unpacking accepts unchanged |
| `Config.AsDict` | core/config_manager.py:75 | `asdict(config)` has exactly the three section names, each a dict of exactly that section's field names |
| `Config.SaveThenLoad` | core/config_manager.py:59-75 | after a successful save of `c`, loading returns `c` and keeps it as the configuration |
| `VideoSources.IsDigits` | services/video_source.py:26 | `isdigit()` is false on the empty string and passes only digits; a digit string without a leading zero is the decimal spelling of the index it denotes |
| `VideoSources.ParseDecimal` | services/video_source.py:27 | `int()` of a digit string without a leading zero is positive and spells back to that string |
| `VideoSources.DecimalRoundTrip` | services/video_source.py:26-27 | every device index written in decimal is a digit string that `int()` reads back as that index |
| `VideoSources.CaptureTargetOf` | services/video_source.py:25-27 | the capture target is a device index exactly when the source is a string of digits; any other source is passed unchanged |
| `VideoSources.IndexStringOpensIndex` | services/video_source.py:25-27 | a configured source "n" opens camera index n |
| `VideoSources.AttemptsFrom` | services/video_source.py:29-34 | from attempt k on, the loop stops at the first attempt that reports opened, and never goes past the third |
| `VideoSources.Attempts` | services/video_source.py:29-34 | the number of open calls is one more than the index of the first success, at most 3, and every earlier attempt failed |
| `VideoSources.OpensIffSomeAttemptOpens` | services/video_source.py:29-41 | opening succeeds exactly when one of the first three attempts reports opened |
| `VideoSources.VideoSource.constructor` | services/video_source.py:12-20 | `self.source` keeps the configured value and there is no handle before opening |
| `VideoSources.VideoSource.OpenSource` | services/video_source.py:22-41 | every attempt opens the same coerced target; returns at the first opened handle after one wait per failed attempt; after 3 failures, 3 waits and an error naming the configured source |
| `VideoSources.VideoSource.GetFrame` | services/video_source.py:43-54 | `(False, None)` with no handle or a closed one, otherwise exactly what `read` returns |
| `VideoSources.VideoSource.Release` | services/video_source.py:56-60 | no handle: nothing happens; otherwise the handle is released once and reports closed |
| `VideoSources.OpenScenarios` | services/video_source.py:29-41 | failing twice then opening takes 3 calls and 2 waits; never opening takes 3 waits and leaves a closed handle on which release and `get_frame` are safe |
| `CaptureServices.Drained` | services/capture_service.py:78-79 | the non-blocking drain removes exactly the oldest frame when there is one |
| `CaptureServices.WriteFrame` | services/capture_service.py:77-80 | latest-wins: drain one stale frame, then put; a queue that held at most one frame afterwards holds only the new one |
| `CaptureServices.Iterate` | services/capture_service.py:59-91 | one iteration: breaks exactly on preview exhaustion with one COMPLETED; an exception adds one ERROR and a pause and continues; the data queue gains exactly the truthy analysis-mode packet when it has room, and nothing otherwise; `queue.Full` on data skips the rest silently; latest-wins frame write |
| `CaptureServices.Run` | services/capture_service.py:48-93 | failed orchestrator construction: one ERROR, no loop, no release; otherwise the loop runs and `release` is called exactly once |
| `CaptureServices.RunLoop` | services/capture_service.py:58-91 | the `while running_event.is_set()` loop; latest wins over a whole run: a frame queue starting with at most one frame never holds more than one |
| `CaptureServices.RunLoopAppendsOnly` | services/capture_service.py:58-91 | the worker never removes or reorders what the data and status queues already hold; it only appends |
| `CaptureServices.RunLoopDeliversProduced` | services/capture_service.py:61-65 | the data queue ends as what it held followed by exactly the produced packets (each truthy analysis-mode packet that found room), in production order |
| `CaptureServices.PreviewWritesNoData` | services/capture_service.py:66-74 | iterations in preview mode never write to the data queue |
| `CaptureServices.ClearedRunningEndsLoop` | services/capture_service.py:58 | the loop runs only while `running` is set: nothing after the first iteration that finds it cleared has any effect |
| `CaptureServices.AtMostOneCompleted` | services/capture_service.py:67-72 | a run sends at most one COMPLETED status |
| `CaptureServices.ExhaustionCompletesOnce` | services/capture_service.py:66-72 | in preview, a stream exhausted at the k-th read ends the run with exactly one COMPLETED, as the last status, and no packet written |
| `CaptureServices.PutLatest` | services/capture_service.py:77-80 | the in-place frame write leaves the frame queue and the `queue.Full` outcome exactly as `WriteFrame` specifies |
| `CaptureServices.RunIteration` | services/capture_service.py:59-91 | one in-place pass of the loop body leaves the three queues, the pause and yield counts and the `break` flag exactly as `Iterate` specifies |
| `CaptureServices.RunCaptureLoop` | services/capture_service.py:48-93 | the in-place loop over the three queues leaves them, the pause and yield counts and the release count exactly as `Run` specifies, and it modifies nothing but the queues |
| `CaptureServices.CaptureService.constructor` | services/capture_service.py:15-22 | a new service has its own cleared `running` event, shares the given queues and analysis event, and has no process |
| `CaptureServices.CaptureService.Start` | services/capture_service.py:24-35 | a no-op while the process exists and is alive; otherwise `running` is set and exactly one new process is spawned, which is then the only one that may be alive; `running` is set exactly when a process is held, and at most one worker of this service may be alive |
| `CaptureServices.CaptureService.Stop` | services/capture_service.py:37-45 | always clears `running` and drops the process; a held process is joined once and terminated only if still alive after the join, so afterwards no worker may be alive |
| `RealtimeHandlers.Insert` | app/mode_handler/realtime_handler.py:78 | inserting into a sorted list keeps it sorted and adds exactly that element |
| `RealtimeHandlers.Sort` | app/mode_handler/realtime_handler.py:78 | `sort()` yields an ascending arrangement of the same elements |
| `RealtimeHandlers.SortedIsUnique` | app/mode_handler/realtime_handler.py:78 | two ascending arrangements of the same strings are equal, so `Sort` is Python's sort |
| `RealtimeHandlers.RealtimeHandler.constructor` | app/mode_handler/realtime_handler.py:12-19 | a fresh, cleared analysis event and no capture service |
| `RealtimeHandlers.RealtimeHandler.OnModeSelected` | app/mode_handler/realtime_handler.py:21-30 | analysis is cleared, then a new service over the realtime settings' dict is created with the shared queues and event, and started once |
| `RealtimeHandlers.RealtimeHandler.OnModeDeselected` | app/mode_handler/realtime_handler.py:40-45 | a held service is stopped and dropped; with none, no service is touched; the analysis flag is unchanged |
| `RealtimeHandlers.RealtimeHandler.StartAnalysis` | app/mode_handler/realtime_handler.py:50-55 | sets analysis and empties the history and the registry |
| `RealtimeHandlers.RealtimeHandler.StopAnalysis` | app/mode_handler/realtime_handler.py:57-60 | clears analysis and changes nothing else |
| `RealtimeHandlers.RealtimeHandler.GetNextDataPacket` | app/mode_handler/realtime_handler.py:72-81 | empty queue: `None` and registry unchanged; otherwise the oldest packet, unchanged, and the registry gains exactly its new `ID_` keys, sorted, keeping no duplicates |
| `RealtimeHandlers.NewIds` | app/mode_handler/realtime_handler.py:75 | the new ids are `ID_` keys of the packet that are not registered yet, and every `ID_` key of the packet is either registered or new |
| `RealtimeHandlers.RealtimeHandler.ExtendAndSort` | app/mode_handler/realtime_handler.py:76-78 | extending with unregistered ids then sorting gives a sorted registry holding the old ids plus the new ones, without duplicates |
| `RealtimeHandlers.RealtimeHandler.GetLatestFrame` | app/mode_handler/realtime_handler.py:83-90 | removes at most one frame without waiting; `None` on an empty queue |
| `RealtimeHandlers.ReselectLeavesWorkerRunning` | app/mode_handler/realtime_handler.py:21-30 | a second mode selection without deselection replaces the service without stopping it: both workers are running and share the queues |
| `RealtimeHandlers.LatestFrameIsPolled` | app/mode_handler/realtime_handler.py:83-90 | after a latest-wins write of frame f, the consumer's poll returns f |

## Left out

- Real multiprocessing is not modelled: process spawn, the daemon flag, cross-process event visibility and join timing. `is_alive()` answers and the outcome of the 2 s join are inputs.
- Sleeps (0.5 s, 1 s, 1 ms) and queue put timeouts are not timed. Sleeps are counts, and a timed-out put is `queue.Full`.
- `RealtimeOrchestrator` and the frame pixels are opaque. `process_one_frame`, `get_frame`, `read` and `isOpened` are inputs, frames are identities, and packets are maps of JSON values.
- The `Status`/`StatusMessage` definitions live in a file that is not part of this model. They are a three-tag datatype with a detail string. Log lines, `print` output and the Japanese message texts are left out; the COMPLETED detail is a fixed English text.
- The JSON encoding, the file system and logging are abstracted. A failed config write leaves the file as it was, so a partly written file is not modelled. JSON floating-point numbers are not modelled.
- `str.isdigit()` is modelled for ASCII digits only. Other Unicode digits, which `int()` may reject, are not modelled.
- `VideoSource.__init__` also computes a processed source that it never uses; that dead computation is not modelled.
- The handler's `self.model` belongs to the controller, which is not part of this model. Its two lists are fields of the handler class.
- UI button states, the controller's preview loop and `_toggle_pause_specifics` (print only) are not modelled.
- `utils/camera_utils.py` and `app/views/config_dialog.py` are not modelled. They are a foreign device-listing call and a Tk dialog.
- CaptureServices.RunCaptureLoop: requires the status queue to be unbounded, because a plain `put` on a full status queue would block forever. It also requires the control context to clear `running` eventually (the ticks end with such an iteration), so the loop terminates.
- CaptureServices.RunIteration: requires the status queue to be unbounded, because a blocked put would never return.
- Config.ConfigManager.constructor: requires the file not to hold data that `from_dict` rejects. In that case `__init__` raises, and the model does not construct a manager.
- CaptureServices.CaptureService.Start: requires the service invariant (`running` set exactly when a process is held, and no other worker may be alive), which the constructor establishes and `Start`/`Stop` keep.
- CaptureServices.CaptureService.Stop: treats `terminate()` as ending the process, and a process that `is_alive()` reported dead or a join found finished as gone for good. The model does not follow a worker that exits on its own while still held, so it counts that worker as possibly alive.
- At most one live worker is proved per `CaptureService`, not per handler. `on_mode_selected()` (app/mode_handler/realtime_handler.py:29-30) drops a held service without calling `stop()`. A second selection without a deselection therefore leaves the first worker running, holding the capture device and writing to the shared queues. `ReselectLeavesWorkerRunning` proves this. The model keeps the code's behaviour and does not add a `stop()`.
- No INFO status is ever sent by this core. Mid-session toggling of analysis never reopens the video source, because the loop has no open call; this is structural and not stated as a contract.
