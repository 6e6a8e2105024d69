# Server monitoring, fleet lookup and password-hash generation in Dafny

This project models the sequential logic of two small tools and proves
properties about it:

- **The multi-server monitoring dashboard** (`multi-server-monitoring-dashboard/app.py`):
  - how `ssh_execute` turns one remote command's streams, or an exception, into the text it returns;
  - how `collect_all_data` fills one host's record, probe by probe:
    - uptime comes first, and a connection error there marks the host Offline and stops;
    - otherwise cpu, disk, memory, GPU and Docker follow in a fixed order;
    - an exception that escapes a probe turns the status into an error;
  - the tests `main` applies when it draws a record: the card colour, whether the detail tabs appear, and the GPU and Docker tabs.
- **The password-hash generator** (`multi-server-monitoring-dashboard/generate_password_hash.py`):
  - the empty, short and mismatch checks on the two password entries;
  - the `$` → `$$` escape that Docker Compose needs in a `.env` file;
  - the line the operator is told to copy.
- **The Ollama fleet manager** (`ollama-fleet-manager/fleet_manager.py`):
  - the server, model-family and recommendation tables;
  - `get_recommended_model`, a lookup with a fixed fallback;
  - the server-URL choice of `get_model`.

Modules:

- `Wrappers` (`wrappers.dfy`): the `Option` type.
- `Text` (`text.dfy`): the Python string operations the sources use. These are substring tests (`in`), ASCII lower-casing (`.lower()`) and whitespace trimming (`.strip()`, over the characters `str.isspace` accepts).
- `Monitor` (`monitor.dfy`): the dashboard.
  - `ssh_execute`'s classification is the pure function `Classify`.
  - `collect_all_data` is the method `ServerMonitor.CollectAllData`.
    - It is a straight-line method on a class whose `issued` field logs every command sent, in order.
    - It is proved against the reference function `Collected`.
  - What the network does to each command is an `Outcome` parameter, either:
    - `Returned(stdout, stderr)`;
    - `Raised(message)`;
    - `RaisedUnprintable(fault)`, for an exception whose conversion to text raises again inside `ssh_execute`'s handler. Such an exception escapes `ssh_execute` and reaches the `except` at app.py:120-121.
  - The clock reading is the string parameter `now`.
- `PasswordHash` (`password_hash.dfy`): the generator.
  - bcrypt's hashing and checking are function parameters.
  - Docker Compose's reading of `$$` is the reference function `Unescape`.
- `FleetManager` (`fleet_manager.dfy`): the tables and the two lookups.

Facts about the code that the model keeps as they are:

- The code opens a new SSH session for every command; it does not reuse one session per host.
- A probe that fails with "Error: …" or "Connection Error: …" after uptime leaves the host Online, with the error text stored in that probe's field. There is no "completed with errors" status.
- Probes that are never run keep the empty string. There is no "not run" marker.
- There is no per-probe sentinel. `ssh_execute` applies one case-insensitive "command not found" test to every command. The GPU and Docker tabs apply their own case-sensitive tests.

## Model

| member | source | states |
|---|---|---|
| Monitor.Classify | multi-server-monitoring-dashboard/app.py:49-55 | The result is the escaping fault exactly when the exception cannot be printed. A non-empty stderr without "command not found" (in any letter case) gives "Error: " + stderr, and stdout is dropped. Otherwise stdout is returned unchanged. A raised exception gives "Connection Error: " + message, which contains "Connection Error" and never starts with "Error: ". |
| Monitor.MissingCommandKeepsStdout | multi-server-monitoring-dashboard/app.py:49 | A stderr containing "command not found" written in any letter case lets stdout through unchanged. |
| Monitor.IsGenuineError | multi-server-monitoring-dashboard/app.py:49 | The test of `ssh_execute`: stderr is non-empty and its lower-cased text does not contain "command not found". Its meaning in terms of the original text is stated by `GenuineErrorAnyCase`. |
| Monitor.GenuineErrorAnyCase | multi-server-monitoring-dashboard/app.py:49 | Both directions: a stderr is a genuine error exactly when it is non-empty and no slice of it reads "command not found" in any mix of letter case. |
| Text.LowerOccurrence | multi-server-monitoring-dashboard/app.py:49 | Whatever a search of the lower-cased text finds is the lower-casing of some slice of the original text (the converse of `ContainsLower`). |
| Text.ContainsLower | multi-server-monitoring-dashboard/app.py:49 | A substring of `s` stays a substring after both are lower-cased. |
| Text.Strip | multi-server-monitoring-dashboard/app.py:111 | The trimmed text is no longer than the input. It neither starts nor ends with whitespace. An input already without surrounding whitespace is unchanged. |
| Text.StripKeepsBlock | multi-server-monitoring-dashboard/app.py:111 | The trimmed text is the slice of the input between a run of leading whitespace and a run of trailing whitespace. |
| Text.StripLeft | multi-server-monitoring-dashboard/app.py:111 | Python's `lstrip()`: drops whitespace characters from the front, one at a time. Its properties are stated by `StripLeftDropsLeadingSpace`. |
| Text.StripRight | multi-server-monitoring-dashboard/app.py:111 | Python's `rstrip()`: drops whitespace characters from the back, one at a time. Its properties are stated by `StripRightDropsTrailingSpace`. |
| Text.StripLeftDropsLeadingSpace | multi-server-monitoring-dashboard/app.py:111 | Left trimming keeps a suffix of the input. Every character it removes is whitespace, and the first character it keeps is not. |
| Text.StripRightDropsTrailingSpace | multi-server-monitoring-dashboard/app.py:111 | Right trimming keeps a prefix of the input. Every character it removes is whitespace, and the last character it keeps is not. |
| Monitor.Command | multi-server-monitoring-dashboard/app.py:57-85 | The command line of each `get_*` wrapper: `uptime`, the `top` pipeline, `df -h`, `free -h`, `nvidia-smi`, `docker ps`. |
| Monitor.CallsPrefix | multi-server-monitoring-dashboard/app.py:102-118 | The commands of a shorter run of the battery are a prefix of those of a longer run, so whatever is sent to a host is the start of one fixed sequence. |
| Monitor.Initial | multi-server-monitoring-dashboard/app.py:89-100 | The record before anything is sent: server name and host from the descriptor, status "Unknown", every probe field empty, and the clock reading. |
| Monitor.Store | multi-server-monitoring-dashboard/app.py:113-118 | Storing a probe's text sets exactly that probe's field. The other five probe fields, the server, the host, the status and the timestamp stay as they were. |
| Monitor.Continue | multi-server-monitoring-dashboard/app.py:113-121 | The probes after uptime leave server, host and timestamp alone, and never touch the fields of earlier probes. They send at most the remaining commands. They leave the status as it was, or turn it into "🔴 Error: …". |
| Monitor.Collected | multi-server-monitoring-dashboard/app.py:87-123 | Reference for one host's collection. Between 1 and 6 commands are sent. Server and host are copied from the descriptor; the timestamp is the clock reading `now`. The status is never "Unknown". If the uptime text contains "Connection Error", the status is Offline, uptime holds the raw text, all other fields are empty and one command was sent. A fault on uptime gives the error status after one command. |
| Monitor.ContinueStoresAll | multi-server-monitoring-dashboard/app.py:113-118 | With no fault ahead, every remaining probe's text is stored verbatim in its own field. All remaining commands are sent and the status is untouched. |
| Monitor.ContinueStopsAtFault | multi-server-monitoring-dashboard/app.py:113-121 | The first fault ends the collection. The status carries its message. The probes before it are stored, those after it stay as they were, and no command after the faulting one is sent. |
| Monitor.OnlineStoresVerbatim | multi-server-monitoring-dashboard/app.py:109-118 | A live uptime answer with no fault after it gives status Online and the trimmed uptime. The other five answers are stored verbatim, including "Error: …" and "Connection Error: …" texts. All six commands are sent. |
| Monitor.StatusFromUptimeAlone | multi-server-monitoring-dashboard/app.py:104-118 | Without faults, two collections with the same uptime answer end with the same status, whatever the other probes return. |
| Monitor.FaultEndsCollection | multi-server-monitoring-dashboard/app.py:113-121 | An exception escaping the probe at position f after a live uptime makes the status "🔴 Error: " + its message. Exactly f + 1 commands are sent. |
| Monitor.RaisingUptimeMeansOffline | multi-server-monitoring-dashboard/app.py:104-108 | If connecting for uptime raises, the host is Offline and its uptime is the "Connection Error: …" text. The other fields stay empty and no further command is sent. |
| Monitor.ServerMonitor.constructor | multi-server-monitoring-dashboard/app.py:12-14 | The monitor holds the given server list and has sent nothing. |
| Monitor.ServerMonitor.SshExecute | multi-server-monitoring-dashboard/app.py:28-55 | It logs exactly one command to the given server and returns the classification of what that command met. |
| Monitor.ServerMonitor.GetProbe | multi-server-monitoring-dashboard/app.py:57-85 | Each `get_*` wrapper sends its own fixed command line once and returns `ssh_execute`'s result. |
| Monitor.ServerMonitor.CollectProbe | multi-server-monitoring-dashboard/app.py:113-121 | One assignment of the `try` block sends the next command of the battery. Together with its handler, it either stops the collection on a fault or stores the text and keeps the collection on track for the reference. |
| Monitor.ServerMonitor.CollectAllData | multi-server-monitoring-dashboard/app.py:87-123 | The record returned, and the commands appended to the log, are the reference collection for the classified outcomes. At least one and at most six commands are sent, always a prefix of the battery, in battery order, to this server. |
| Monitor.CollectedStatus | multi-server-monitoring-dashboard/app.py:102-121 | A collected status is always "🔴 Offline", "🟢 Online" or "🔴 Error: …". |
| Text.ContainsChar | multi-server-monitoring-dashboard/app.py:176 | A one-character substring test is a membership test. This justifies reading the 🟢/🔴 tests as membership. |
| Monitor.BorderColor | multi-server-monitoring-dashboard/app.py:176 | The card is green when the status contains 🟢 and red otherwise. What this means for collected records is stated by `StatusDisplay`. |
| Monitor.ShowsDetails | multi-server-monitoring-dashboard/app.py:193-195 | The detail tabs are drawn unless the status contains 🔴. What this means for collected records is stated by `StatusDisplay`. |
| Monitor.ShowsGpu | multi-server-monitoring-dashboard/app.py:222 | The GPU text is shown when it is non-empty and does not contain "command not found" (case-sensitive). What this means for a `nvidia-smi` run is stated by `GpuTab`. |
| Monitor.ShowsDocker | multi-server-monitoring-dashboard/app.py:229 | The Docker text is shown when it is non-empty and does not contain "Cannot connect". What this means for a `docker ps` run is stated by `DockerTab`. |
| Monitor.StatusDisplay | multi-server-monitoring-dashboard/app.py:176-195 | Only an Online host gets its detail tabs; Offline and error hosts get the error banner. The card is green exactly for an Online host, or for an error whose message itself contains 🟢. |
| Monitor.CollectedDisplay | multi-server-monitoring-dashboard/app.py:176-195 | The two display rules above hold for every collected record. |
| Monitor.GpuTab | multi-server-monitoring-dashboard/app.py:222 | For a `nvidia-smi` run that returned, the GPU text is shown in exactly two cases. The first is a genuine error. The second is an output that is non-empty and does not itself contain "command not found". |
| Monitor.DockerTab | multi-server-monitoring-dashboard/app.py:229 | For a `docker ps` run that returned, a genuine error is shown exactly when it does not mention "Cannot connect". Otherwise the output is shown exactly when it is non-empty and does not mention it. |
| PasswordHash.Escape | multi-server-monitoring-dashboard/generate_password_hash.py:49 | The escaped length is the original length plus the number of `$`, and the escaped text has twice as many `$`. |
| PasswordHash.UnescapeEscape | multi-server-monitoring-dashboard/generate_password_hash.py:49 | Reading the escaped hash back with `$$` as `$` gives the original hash. |
| PasswordHash.EscapeKeepsOtherCharacters | multi-server-monitoring-dashboard/generate_password_hash.py:49 | Apart from the `$` signs, the escaped text is the original text, in order. |
| PasswordHash.EscapedRunsEven | multi-server-monitoring-dashboard/generate_password_hash.py:49 | Every maximal run of `$` in the escaped text has even length. |
| PasswordHash.Run | multi-server-monitoring-dashboard/generate_password_hash.py:29-76 | An empty first entry is refused before the confirmation is read. A mismatch is refused and no hash is produced. Matching entries produce a hash. A password shorter than 8 only raises a warning. The emitted line starts with `DASHBOARD_PASSWORD_HASH=` and reads back to bcrypt's hash. The verification result is bcrypt's check of that password against that hash. The exit status is 0 exactly when the first entry is non-empty, the confirmation matches it, and bcrypt verifies the password against its hash. |
| PasswordHash.EnvLineShape | multi-server-monitoring-dashboard/generate_password_hash.py:58 | The line to copy is `DASHBOARD_PASSWORD_HASH=` followed by the escaped hash. |
| FleetManager.GetModel | ollama-fleet-manager/fleet_manager.py:67-91 | The base URL is the URL of the requested server if that key is known, and the small server's URL otherwise, so it is always a configured URL. Model, temperature and format are passed through. |
| FleetManager.GetRecommendedModel | ollama-fleet-manager/fleet_manager.py:94-111 | Each of the 12 table keys gives exactly its entry. Any other pair gives ("qwen2.5:7b", "server_medium"). The server returned is always a key of the server table. |
| FleetManager.DefaultRecommendation | ollama-fleet-manager/fleet_manager.py:94-111 | The default arguments give ("qwen2.5:7b", "server_medium"). |
| FleetManager.RecommendedModelListed | ollama-fleet-manager/fleet_manager.py:24-64 | Every model it can recommend is listed in some family of the model catalogue. |
| FleetManager.RecommendationReachesItsServer | ollama-fleet-manager/fleet_manager.py:85 | Passing a recommendation to `get_model` reaches the URL of the recommended server, never the fallback. |

## Left out

- SSH itself is not modelled: paramiko's connect, `exec_command`, the stream reads, UTF-8 decoding and `close`. Each command's fate is an `Outcome` parameter, and a decoding failure counts as `Raised`. The session that stays open when an exception interrupts `ssh_execute` is not modelled.
- The concurrent fan-out over servers with `ThreadPoolExecutor`/`as_completed` (app.py:156-168) is not modelled. It is concurrency, and records are appended in completion order; `CollectAllData` models one host.
- Loading `servers.yml` (`load_servers`, app.py:16-26) is file I/O. The server list is a constructor parameter.
- `datetime.now()` is a clock. The formatted reading is the parameter `now`.
- The Streamlit page is not modelled: layout, sidebar, auto-refresh, `time.sleep` and `st.rerun`. Neither are the disk and memory tabs' emptiness tests or the System Info tab. Only the tests on status, GPU and Docker text are modelled.
- Text.Lower: lower-cases ASCII letters only. For the one test it serves this changes nothing: the only non-ASCII characters whose Python lower-case contains an ASCII letter are U+0130 (→ "i̇") and U+212A (→ "k"). Neither "i" nor "k" occurs in "command not found".
- Monitor.ServerMonitor.CollectAllData: the number of commands sent is a ghost out-parameter; the source returns only the record.
- Monitor.ServerMonitor.CollectAllData: does not model two crashes. First, a server entry without `name` or `host` makes `collect_all_data` raise `KeyError` before its `try` (app.py:90-91), and the error leaves `future.result()` in `main` (app.py:167). `ServerConfig` always has both fields. Second, if `str(e)` raises again in the handler at app.py:121, the exception leaves `collect_all_data`. The model takes the escaping exception's text as given: `RaisedUnprintable(fault)` carries it.
- bcrypt's `generate_hash`/`verify_hash` (generate_password_hash.py:11-20) are foreign cryptography. They are the parameters `hash` and `verify`.
- `getpass`, `print` and `sys.exit` are I/O. The exit code is `ExitStatus` of the session's outcome.
- The handlers for `KeyboardInterrupt` and other exceptions around the generator's `main` (generate_password_hash.py:79-86) are not modelled. They run on an interrupt, on end of input at either password prompt (`getpass` raises `EOFError`), or on a failure in bcrypt or in printing; each exits with status 1 and matches none of the modelled session outcomes.
- Docker Compose's own `.env` parser is not modelled. `Unescape` is a reference reading: `$$` is one `$`, and any other `$` fails.
- The environment overrides of the server URLs and `load_dotenv` (fleet_manager.py:14, 17-21) are not modelled; the default URLs stand as opaque constants.
- The `ChatOllama` construction (fleet_manager.py:86-91) is a foreign client. `GetModel` returns the settings it would be built from.
- The example `main` of the fleet manager is not modelled.
- The performance scripts (`debug_performance.py`, `quick_test.py`) are wall-clock measurements and are not modelled.
