/** The current logger (glog.go): request-scoped trace extraction, the fixed-order
    entry of a plain call, and the merge of a structured payload with the reserved
    keys. The HTTP request is reduced to the value of its X-Cloud-Trace-Context
    header and the GOOGLE_CLOUD_PROJECT variable to a parameter; message formatting
    (fmt.Sprint and friends) happens before the calls modelled here. */
module Glog {
  import opened GoStrings
  import opened Levels
  import opened JsonFields

  const MessageKey := "message"
  const SeverityKey := "severity"
  const TraceKey := "logging.googleapis.com/trace"

  /** A Logger value. `spanID` is declared in glog.go but never assigned there. */
  datatype Logger = Logger(trace: string, spanID: string)

  /** The zero Logger behind every package-level function (`var std Logger`). */
  const Std := Logger("", "")

  /** The trace name Cloud Logging expects, as built by the Sprintf in ForRequest. */
  function TraceName(projectID: string, traceID: string): (name: string)
    ensures |name| == |projectID| + |traceID| + 17
    ensures name[..9] == "projects/" && name[|name| - |traceID|..] == traceID
  {
    "projects/" + projectID + "/traces/" + traceID
  }

  /** ForRequest: the trace is the header's text before its first '/', qualified by the
      project, unless tracing is off (no project), the header has no '/' or starts with
      one, or that text is all '0's. */
  function ForRequest(projectID: string, header: string): (l: Logger)
    ensures l.spanID == ""
    ensures l.trace != "" ==> projectID != "" && '/' in header
  {
    if projectID != "" then
      var i := IndexByte(header, '/');
      if i > 0 then
        var t := header[..i];
        if CountByte(t, '0') != |t| then Logger(TraceName(projectID, t), "") else Std
      else Std
    else Std
  }

  /** With no project ID, tracing is off whatever the header says. */
  lemma ForRequestDisabled(header: string)
    ensures ForRequest("", header) == Std
  {
  }

  /** A header without '/' gives no trace. */
  lemma ForRequestNoSeparator(projectID: string, header: string)
    requires '/' !in header
    ensures ForRequest(projectID, header) == Std
  {
  }

  /** A header that starts with '/' gives no trace. */
  lemma ForRequestLeadingSeparator(projectID: string, rest: string)
    ensures ForRequest(projectID, "/" + rest) == Std
  {
  }

  /** A trace id made only of '0's gives no trace. */
  lemma ForRequestAllZeros(projectID: string, traceID: string, rest: string)
    requires '/' !in traceID
    requires AllOf(traceID, '0')
    ensures ForRequest(projectID, traceID + "/" + rest) == Std
  {
    IndexByteAfter(traceID, '/', rest);
    assert (traceID + "/" + rest)[..|traceID|] == traceID;
  }

  /** Otherwise the trace is the project-qualified text before the first '/'. */
  lemma ForRequestTrace(projectID: string, traceID: string, rest: string)
    requires projectID != ""
    requires '/' !in traceID
    requires !AllOf(traceID, '0')
    ensures ForRequest(projectID, traceID + "/" + rest) == Logger(TraceName(projectID, traceID), "")
  {
    IndexByteAfter(traceID, '/', rest);
    assert (traceID + "/" + rest)[..|traceID|] == traceID;
  }

  /** Nothing after the first '/' (span id, options) affects the result. */
  lemma ForRequestIgnoresSpan(projectID: string, traceID: string, rest1: string, rest2: string)
    requires '/' !in traceID
    ensures ForRequest(projectID, traceID + "/" + rest1) == ForRequest(projectID, traceID + "/" + rest2)
  {
    IndexByteAfter(traceID, '/', rest1);
    IndexByteAfter(traceID, '/', rest2);
    assert (traceID + "/" + rest1)[..|traceID|] == traceID;
    assert (traceID + "/" + rest2)[..|traceID|] == traceID;
  }

  /** The `entry` struct of a plain call. */
  datatype Entry = Entry(message: string, severity: string, trace: string)

  /** Position of a key in the struct's declaration order. */
  function Rank(key: string): nat {
    if key == MessageKey then 0
    else if key == SeverityKey then 1
    else if key == TraceKey then 2
    else 3
  }

  /** The members encoding/json writes for an `entry`: "message" always, the two
      `omitempty` fields only when non-empty, in declaration order. */
  function Fields(e: Entry): (fs: seq<Field>)
    ensures |fs| > 0 && fs[0] == Field(MessageKey, e.message)
    ensures forall i | 0 <= i < |fs| :: Rank(fs[i].key) < 3
    ensures Ordered(fs, Rank)
  {
    var withSeverity := [Field(MessageKey, e.message)] + OmitEmpty(SeverityKey, e.severity);
    OrderedAppend([Field(MessageKey, e.message)], OmitEmpty(SeverityKey, e.severity), Rank, 1);
    OrderedAppend(withSeverity, OmitEmpty(TraceKey, e.trace), Rank, 2);
    withSeverity + OmitEmpty(TraceKey, e.trace)
  }

  /** Each member of the entry is found under its key exactly when it is written. */
  lemma FieldsLookup(e: Entry)
    ensures Lookup(Fields(e), MessageKey) == Some(e.message)
    ensures Lookup(Fields(e), SeverityKey) == (if e.severity == "" then None else Some(e.severity))
    ensures Lookup(Fields(e), TraceKey) == (if e.trace == "" then None else Some(e.trace))
  {
    var withSeverity := [Field(MessageKey, e.message)] + OmitEmpty(SeverityKey, e.severity);
    LookupAppendOmitEmpty([Field(MessageKey, e.message)], SeverityKey, e.severity, SeverityKey);
    LookupAppendOmitEmpty([Field(MessageKey, e.message)], SeverityKey, e.severity, TraceKey);
    LookupAppendOmitEmpty(withSeverity, TraceKey, e.trace, MessageKey);
    LookupAppendOmitEmpty(withSeverity, TraceKey, e.trace, SeverityKey);
    LookupAppendOmitEmpty(withSeverity, TraceKey, e.trace, TraceKey);
  }

  /** One write: the stream chosen and the members of the JSON line. */
  datatype Write = Write(stream: Stream, fields: seq<Field>)

  /** logs: every plain call (Print, Debugln, Errorf, ...) ends here with its
      formatted message; the per-severity wrappers only choose `s`. */
  function Logs(s: Severity, l: Logger, msg: string): (w: Write)
    ensures 1 <= |w.fields| <= 3 && w.fields[0] == Field(MessageKey, msg)
    ensures w.stream == Stderr <==> s >= Error
  {
    Write(File(s), Fields(Entry(msg, String(s), l.trace)))
  }

  /** What a plain call writes: the message always, the severity name and the trace
      only when non-empty, nothing else; error-ish severities go to stderr. */
  lemma LogsEntry(s: Severity, l: Logger, msg: string)
    ensures var w := Logs(s, l, msg);
      && w.fields[0] == Field(MessageKey, msg)
      && Lookup(w.fields, MessageKey) == Some(msg)
      && (Lookup(w.fields, SeverityKey).Some? <==> s in All[1..8])
      && (s in All[1..8] ==> Lookup(w.fields, SeverityKey) == Some(String(s)))
      && (Lookup(w.fields, TraceKey).Some? <==> l.trace != "")
      && (w.stream == Stderr <==> s >= Error)
  {
    NamedIff(s);
    FieldsLookup(Entry(msg, String(s), l.trace));
  }

  /** Package-level plain calls (Print, Infof, ...) log through the zero Logger, so
      their entries never carry a trace member. */
  lemma PackageLogsUntraced(s: Severity, msg: string)
    ensures Lookup(Logs(s, Std, msg).fields, TraceKey) == None
    ensures |Logs(s, Std, msg).fields| <= 2
  {
  }

  /** Emergency and Default entries carry no severity member, because String has no
      name for them. */
  lemma UnnamedLevelsOmitSeverity(l: Logger, msg: string)
    ensures Lookup(Logs(Emergency, l, msg).fields, SeverityKey) == None
    ensures Lookup(Logs(Default, l, msg).fields, SeverityKey) == None
    ensures Logs(Emergency, l, msg).stream == Stderr
  {
    NameTable();
    FieldsLookup(Entry(msg, "", l.trace));
  }

  /** A raw JSON value held in the merged map (json.RawMessage): either the encoding of
      a Go string, as json.Marshal produces for the reserved keys, or some other JSON
      value of the payload, kept abstract. */
  datatype Raw = Quoted(text: string) | Other(id: nat)

  /** What json.Marshal makes of a structured payload, as far as Unmarshal into a
      map cares: an error, an object (its members, later duplicates already resolved),
      `null`, or any other JSON value (a string, number, boolean or array). */
  datatype Payload = MarshalFailure | Object(members: map<string, Raw>) | Null | NonObject(raw: Raw)

  /** The map Encode is handed: still nil (Unmarshal of `null` sets it to nil, and
      nil encodes as `null`) or a map of members. */
  datatype Record = NilMap | Members(m: map<string, Raw>)

  /** Why logj panics: Marshal failed, Unmarshal failed (the payload is no object),
      or a reserved key was assigned into the nil map. */
  datatype PanicReason = MarshalError | UnmarshalError | NilMapAssignment

  datatype Outcome = Panicked(reason: PanicReason) | Wrote(stream: Stream, record: Record)

  /** `m` with `key` set to the JSON encoding of `value`, when `value` is non-empty. */
  function SetIfNonEmpty(m: map<string, Raw>, key: string, value: string): map<string, Raw> {
    if value != "" then m[key := Quoted(value)] else m
  }

  /** The reserved members logj sets: each only when its value is non-empty. */
  function Reserved(msg: string, severity: string, trace: string): map<string, Raw> {
    SetIfNonEmpty(SetIfNonEmpty(SetIfNonEmpty(map[], MessageKey, msg), SeverityKey, severity), TraceKey, trace)
  }

  /** Updating a union on the right is updating its right operand. */
  lemma UnionUpdate(a: map<string, Raw>, b: map<string, Raw>, key: string, v: Raw)
    ensures (a + b)[key := v] == a + b[key := v]
  {
  }

  /** logj: decode the marshalled payload into a key-to-raw-JSON map, then assign the
      non-empty reserved members one by one, then write the map to the severity's stream.
      On an object the result is the payload overridden by the reserved members. */
  method Logj(s: Severity, l: Logger, msg: string, payload: Payload) returns (out: Outcome)
    ensures payload.MarshalFailure? ==> out == Panicked(MarshalError)
    ensures payload.NonObject? ==> out == Panicked(UnmarshalError)
    ensures payload.Null? ==> out == (if Reserved(msg, String(s), l.trace) == map[]
                                      then Wrote(File(s), NilMap) else Panicked(NilMapAssignment))
    ensures payload.Object? ==>
              out == Wrote(File(s), Members(payload.members + Reserved(msg, String(s), l.trace)))
  {
    var entry: Record;
    match payload {
      case MarshalFailure =>
        return Panicked(MarshalError);
      case NonObject(_) =>
        return Panicked(UnmarshalError);
      case Null =>
        entry := NilMap;
      case Object(members) =>
        entry := Members(members);
    }
    ghost var base := entry;
    ghost var reserved: map<string, Raw> := map[];

    if msg != "" {
      if entry.NilMap? {
        assert MessageKey in Reserved(msg, String(s), l.trace);
        return Panicked(NilMapAssignment);
      }
      UnionUpdate(base.m, reserved, MessageKey, Quoted(msg));
      entry := Members(entry.m[MessageKey := Quoted(msg)]);
    }
    reserved := SetIfNonEmpty(reserved, MessageKey, msg);
    assert entry.Members? ==> base.Members? && entry.m == base.m + reserved;

    var name := String(s);
    if name != "" {
      if entry.NilMap? {
        assert SeverityKey in Reserved(msg, String(s), l.trace);
        return Panicked(NilMapAssignment);
      }
      UnionUpdate(base.m, reserved, SeverityKey, Quoted(name));
      entry := Members(entry.m[SeverityKey := Quoted(name)]);
    }
    reserved := SetIfNonEmpty(reserved, SeverityKey, name);
    assert entry.Members? ==> base.Members? && entry.m == base.m + reserved;

    if l.trace != "" {
      if entry.NilMap? {
        assert TraceKey in Reserved(msg, String(s), l.trace);
        return Panicked(NilMapAssignment);
      }
      UnionUpdate(base.m, reserved, TraceKey, Quoted(l.trace));
      entry := Members(entry.m[TraceKey := Quoted(l.trace)]);
    }
    reserved := SetIfNonEmpty(reserved, TraceKey, l.trace);
    assert reserved == Reserved(msg, name, l.trace);
    out := Wrote(File(s), entry);
  }

  /** Package-level structured calls (Printj ... Emergencyj) also go through the zero
      Logger: logj adds no trace member of its own, but a trace member of the payload
      is written unchanged. */
  lemma PackageLogjAddsNoTrace(s: Severity, msg: string, members: map<string, Raw>)
    ensures TraceKey !in Reserved(msg, String(s), Std.trace)
    ensures TraceKey in members ==>
              (members + Reserved(msg, String(s), Std.trace))[TraceKey] == members[TraceKey]
  {
  }

  /** The merged key set: the payload's keys plus each reserved key whose value is non-empty. */
  lemma MergeKeys(members: map<string, Raw>, msg: string, severity: string, trace: string)
    ensures (members + Reserved(msg, severity, trace)).Keys
         == members.Keys
          + (if msg != "" then {MessageKey} else {})
          + (if severity != "" then {SeverityKey} else {})
          + (if trace != "" then {TraceKey} else {})
  {
  }

  /** Every payload member whose key is not set by logj keeps its value; this includes
      a payload's own "message", "severity" or trace member when logj's value for it is empty. */
  lemma MergeKeepsPayload(members: map<string, Raw>, msg: string, severity: string, trace: string, k: string)
    requires k in members
    requires k !in Reserved(msg, severity, trace)
    ensures (members + Reserved(msg, severity, trace))[k] == members[k]
  {
  }

  /** A non-empty reserved value overrides a payload member of the same name. */
  lemma MergeReservedWins(members: map<string, Raw>, msg: string, severity: string, trace: string)
    ensures msg != "" ==> (members + Reserved(msg, severity, trace))[MessageKey] == Quoted(msg)
    ensures severity != "" ==> (members + Reserved(msg, severity, trace))[SeverityKey] == Quoted(severity)
    ensures trace != "" ==> (members + Reserved(msg, severity, trace))[TraceKey] == Quoted(trace)
  {
  }
}
