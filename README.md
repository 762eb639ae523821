# glog: a verified model of the Cloud Logging JSON logger

The logger writes one JSON object per call, tagged with a severity, to stdout or
stderr; Cloud Logging reads the `severity` member to colour the entry and the
`logging.googleapis.com/trace` member to attach it to a request trace. Behind
roughly 130 one-line per-severity wrappers sit four small pieces, present in two
versions of the package (`glog.go`, the current one, and `glog/glog.go`, the
older one). This project models those pieces and proves what they promise:

- **Severity model** (`levels.dfy`, module `Levels`). `severity` is a Go `int32`
  with nine constants, `0, 100, …, 800`. `String` names seven of them. Its switch
  has no case for `emergencysv`, so Emergency, like Default and every other value,
  has the empty name. `File` sends Error and above to stderr and the rest to
  stdout. The two files declare the type, the constants and `String` with the same
  text, so these are modelled once and both versions import them. Only the current
  version has the `File` method; the older `logs` makes the same `s >= errorsv`
  comparison inline, and the model proves the two choices equal.
- **Trace header parsing** (`ForRequest` in modules `Glog` and `LegacyGlog`). The
  parser reads the `X-Cloud-Trace-Context` header value and the project ID, both
  passed as plain strings. It finds the first `/` (Go's `strings.IndexByte`,
  modelled in `go_strings.dfy`) and builds `projects/<P>/traces/<id>` from the text
  before it.
  - The current version also drops an id made only of `'0'` characters. It does
    this with `strings.Count(t, "0") != len(t)`. It never sets `spanID`.
  - The older version has no all-zero check. It sets `spanID` to `h[i:i+j]`, where
    `j` is the position of the first `;` in `h[i:]`. That value starts with the
    `/` itself, and it stays empty when no `;` follows.
- **Entry members** (`Fields`/`Logs`). `logs` writes the `entry` struct. `message`
  is always written. `severity`, the trace and, in the older version, `spanId`
  carry `omitempty`, so each is written only when non-empty. Members come in
  declaration order. An entry is modelled as its ordered list of members
  (`json_fields.dfy`).
- **Structured payload merge** (`Glog.Logj`, current version only). The method
  follows `logj` step by step.
  - The payload, as `json.Marshal` produced it, is decoded into a key → raw-JSON
    map.
  - The non-empty reserved members (`message`, `severity`, trace) are then
    assigned one by one.
  - The result is the payload map overridden by the reserved members. Every other
    payload member keeps its value.
  - A marshal failure panics. So does a payload that is not a JSON object.
  - A `null` payload is a special case. Go's `Unmarshal` sets the map to nil, so
    the first reserved assignment panics with "assignment to entry in nil map". When
    there is nothing to assign, the nil map is written as `null`.

Package-level functions log through a zero `Logger` (`var std Logger` in the
current version, `Logger{}` in the older one). Their plain calls therefore never
write a trace or a span id. The current version's package-level structured calls
(`Printj` … `Emergencyj`) add no trace of their own either, but a
`logging.googleapis.com/trace` member inside the payload is written unchanged.

The per-severity wrappers differ only in the constant they pass. Each is therefore
the one parametric `Logs(s, l, msg)` (or `Logj(s, l, msg, payload)`) with the
wrapper's severity. `fmt.Sprint`, `fmt.Sprintln` and `fmt.Sprintf` produce `msg`
before that call.

## Model

| member | source | states |
|---|---|---|
| `GoStrings.IndexByte` | glog.go:242 | the result is -1 exactly when the byte is absent, otherwise the position of its first occurrence |
| `GoStrings.CountByte` | glog.go:243 | the count is at most the length and equals it exactly when every character is the one counted |
| `GoStrings.IndexByteAfter` | glog.go:242 | in `t + "/" + rest` with no `/` in `t`, the first `/` is at the length of `t` |
| `Levels.String` | glog.go:481-500 | only values between Debug and Alert that are multiples of 100 get a name, and no name is longer than 8 characters; with `NameTable` and `NamedIff` this fixes every value's name (the same switch is at glog/glog.go:374-393) |
| `Levels.File` | glog.go:502-508 | the levels named ERROR, CRITICAL and ALERT go to stderr, those named DEBUG to WARNING to stdout; `FileIffErrorish` and `FileMonotone` give the rest |
| `Levels.AllAscending` | glog.go:469-479 | the nine constants are `100 * i` for i = 0..8, strictly increasing |
| `Levels.NameTable` | glog.go:481-500 | Debug..Alert map to "DEBUG", "INFO", "NOTICE", "WARNING", "ERROR", "CRITICAL", "ALERT"; Default and Emergency map to "" |
| `Levels.NamedIff` | glog.go:481-500 | a value has a non-empty name iff it is one of the seven constants Debug..Alert (any other int32 gets "") |
| `Levels.NameInjective` | glog.go:481-500 | two values with the same non-empty name are equal |
| `Levels.FileMonotone` | glog.go:502-508 | routing is monotone: if s1 <= s2 and s1 goes to stderr then so does s2 (and if s2 goes to stdout so does s1) |
| `Levels.FileIffErrorish` | glog.go:502-508 | stderr iff s >= Error; among the constants exactly Error, Critical, Alert, Emergency go to stderr |
| `JsonFields.OmitEmpty` | glog.go:550-551 | an `omitempty` string member is written (once, with its key and value) iff its value is non-empty |
| `Glog.TraceName` | glog.go:244 | the name is `projects/` + P + `/traces/` + the id: it starts with `projects/`, ends with the trace id, and is 17 characters longer than P and the id together |
| `Glog.ForRequest` | glog.go:239-249 | `spanID` is never set; a trace is only produced with a project ID and a `/` in the header |
| `Glog.ForRequestDisabled` | glog.go:240 | an empty project ID gives the zero Logger for every header |
| `Glog.ForRequestNoSeparator` | glog.go:242 | a header with no `/` gives the zero Logger |
| `Glog.ForRequestLeadingSeparator` | glog.go:242 | a header whose first `/` is at index 0 gives the zero Logger |
| `Glog.ForRequestAllZeros` | glog.go:243 | a header `t + "/" + rest` with `t` made only of `'0'` (and no `/`) gives the zero Logger |
| `Glog.ForRequestTrace` | glog.go:243-244 | with a project ID, a header `t + "/" + rest` with `t` not all `'0'` gives exactly trace `projects/<P>/traces/<t>` and no span id |
| `Glog.ForRequestIgnoresSpan` | glog.go:242-244 | nothing after the first `/` affects the result |
| `Glog.Fields` | glog.go:548-552 | the entry's members: `message` first, only the three reserved keys, in declaration order |
| `Glog.FieldsLookup` | glog.go:548-552 | `message` always holds the message; `severity` and the trace member are present iff non-empty and then hold their value |
| `Glog.Logs` | glog.go:522-525 | a plain call writes one to three members, `message` first, to stderr iff s >= Error; `LogsEntry` says which members |
| `Glog.LogsEntry` | glog.go:522-525 | a plain call writes the message, a severity member iff the level is one of Debug..Alert (with its name), a trace member iff the Logger has a trace, to stderr iff s >= Error |
| `Glog.PackageLogsUntraced` | glog.go:13-22 | package-level calls go through the zero `std` Logger: no trace member, at most message and severity |
| `Glog.UnnamedLevelsOmitSeverity` | glog.go:522-524 | Emergency and Default entries have no severity member (Emergency still goes to stderr) |
| `Glog.Logj` | glog.go:527-546 | marshal failure and non-object payloads panic; a `null` payload panics iff a reserved member is to be assigned and otherwise writes `null`; an object payload is written as payload + non-empty reserved members, to the severity's stream |
| `Glog.PackageLogjAddsNoTrace` | glog.go:36-39 | a package-level structured call assigns no trace member, and a trace member of the payload is written unchanged |
| `Glog.MergeKeys` | glog.go:535-543 | the merged key set is the payload's keys plus each reserved key whose value is non-empty |
| `Glog.MergeKeepsPayload` | glog.go:528-543 | a payload member whose key logj does not assign keeps its value, including a payload's own `message`/`severity`/trace when logj's value is empty |
| `Glog.MergeReservedWins` | glog.go:535-543 | a non-empty reserved value overrides a payload member of the same name |
| `LegacyGlog.ForRequest` | glog/glog.go:182-196 | for every header: no trace means no span id; a span id, when set, starts with `/` and contains no `;`; the case lemmas below give the exact values |
| `LegacyGlog.SpanID` | glog/glog.go:189-192 | a non-empty span id is a proper prefix of `h[i:]` that contains no `;` and is followed by one; with no `;` in `h[i:]` it is empty |
| `LegacyGlog.ForRequestDisabled` | glog/glog.go:183 | an empty project ID gives `Logger{}` |
| `LegacyGlog.ForRequestNoSeparator` | glog/glog.go:186-187 | a header without `/` gives `Logger{}` |
| `LegacyGlog.ForRequestLeadingSeparator` | glog/glog.go:186-187 | a header starting with `/` gives `Logger{}` |
| `LegacyGlog.ForRequestSpan` | glog/glog.go:188-192 | header `t + "/" + span + ";" + opts` (t non-empty, no `/` in t, no `;` in span) gives trace `projects/<P>/traces/<t>`, even for an all-zero t, and span id `"/" + span` |
| `LegacyGlog.ForRequestNoOptions` | glog/glog.go:188-192 | with no `;` after the first `/`, the trace is set and the span id stays empty |
| `LegacyGlog.Fields` | glog/glog.go:407-412 | the entry's members: `message` first, only the four declared keys, in declaration order |
| `LegacyGlog.FieldsLookup` | glog/glog.go:407-412 | `message` always present; `severity`, trace and `spanId` present iff non-empty, with their values |
| `LegacyGlog.Logs` | glog/glog.go:414-422 | the inline stream choice is exactly `File(s)` of the current version; one to four members, `message` first |
| `LegacyGlog.LogsEntry` | glog/glog.go:414-422 | message always; severity iff Debug..Alert (with its name); trace and spanId iff set in the Logger; stderr iff s >= Error, the same choice as `File` in the current version |
| `LegacyGlog.PackageLogsUntraced` | glog/glog.go:17-175 | package-level calls pass `Logger{}`: never a trace or spanId member |
| `LegacyGlog.PrintExample` | glog/glog_test.go:5-9 | `Print("Test")` writes exactly the one member `message: "Test"`, to stdout |
| `LegacyGlog.InfofExample` | glog/glog_test.go:11-15 | `Infof("Hello %q!", "Google")` writes message `Hello "Google"!` and severity `INFO`, to stdout |

## Left out

- Message formatting by `fmt.Sprint`, `fmt.Sprintln` and `fmt.Sprintf` is left out. It belongs to the standard library, so the formatted message is an input.
- JSON text is left out: string escaping, the quotes, the trailing newline of `Encode`, and the sorted key order of Go's map encoder in `logj`. An entry is modelled as its ordered members, and a `logj` record as a map.
- `Glog.Logj`: a raw JSON value is abstract (`Raw`). The payload is given as what `json.Marshal` produced. Duplicate keys in a payload object appear already resolved, because `Unmarshal` keeps the last one.
- The writes to `os.Stdout`/`os.Stderr` are left out because they are I/O. Only the chosen stream is modelled, and write errors are ignored as in the source.
- `http.Request`, `Header.Get` and `os.Getenv("GOOGLE_CLOUD_PROJECT")` are not modelled. The header value and the project ID are plain string parameters.
- Bytes and characters: Go strings are byte strings, and the model's strings are sequences of characters. The parsers only search for the ASCII characters `/`, `;` and `0`, which never occur inside a multi-byte UTF-8 sequence. So the text the model cuts out (`h[:i]`, `h[i:]`, the span id) is the same as Go's, but the positions are not: for `"é/x"` Go's `IndexByte` returns 2 and the model returns 1. A header that is not valid UTF-8 has no counterpart in the model.
- The roughly 130 per-severity wrappers (glog.go:18-232 and 251-465, glog/glog.go:15-175 and 198-358) are not modelled one by one. Each only passes its severity constant to `Logs`/`Logj`.
- The repository's root test files exercise `New`, `Fatal` and `Panic`. None of these is defined in the two files modelled, so they are not part of this model.
