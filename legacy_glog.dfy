/** The older logger in the glog/ directory: its ForRequest also slices a span id
    out of the X-Cloud-Trace-Context header and has no all-zero check; its entry has a
    fourth, spanId, member; and `logs` picks the stream itself. Package-level functions
    pass a zero `Logger{}`. There is no structured-payload call in this version. */
module LegacyGlog {
  import opened GoStrings
  import opened Levels
  import opened JsonFields

  const MessageKey := "message"
  const SeverityKey := "severity"
  const TraceKey := "logging.googleapis.com/trace"
  const SpanKey := "logging.googleapis.com/spanId"

  datatype Logger = Logger(trace: string, spanID: string)

  /** `Logger{}`, used by every package-level function. */
  const Zero := Logger("", "")

  function TraceName(projectID: string, traceID: string): (name: string)
    ensures |name| == |projectID| + |traceID| + 17
    ensures name[..9] == "projects/" && name[|name| - |traceID|..] == traceID
  {
    "projects/" + projectID + "/traces/" + traceID
  }

  /** ForRequest: with a project and a first '/' at i > 0, the trace is the
      project-qualified h[0:i] and the span id is h[i:i+j], j being the position of
      the first ';' in h[i:] (left empty when j is not positive). Without a trace there
      is no span id; a span id, when set, is the first '/' and what follows it up to
      (not including) the next ';'. */
  function ForRequest(projectID: string, header: string): (l: Logger)
    ensures l.trace == "" ==> l.spanID == ""
    ensures l.spanID != "" ==> l.spanID[0] == '/' && ';' !in l.spanID
  {
    if projectID != "" then
      var i := IndexByte(header, '/');
      if i > 0 then
        Logger(TraceName(projectID, header[0..i]), SpanID(header[i..]))
      else Zero
    else Zero
  }

  /** The span id cut from `h[i:]`, the header from its first '/' on: `h[i:i+j]`, which
      is `h[i:][:j]`, for the first ';' at j > 0 in `h[i:]`, and empty when there is none. */
  function SpanID(fromSlash: string): (span: string)
    ensures span != "" ==> |span| < |fromSlash| && span == fromSlash[..|span|]
    ensures span != "" ==> ';' !in span && fromSlash[|span|] == ';'
    ensures ';' !in fromSlash ==> span == ""
  {
    var j := IndexByte(fromSlash, ';');
    if j > 0 then fromSlash[..j] else ""
  }

  /** With no project ID, nothing is traced. */
  lemma ForRequestDisabled(header: string)
    ensures ForRequest("", header) == Zero
  {
  }

  /** A header without '/' gives the zero Logger. */
  lemma ForRequestNoSeparator(projectID: string, header: string)
    requires '/' !in header
    ensures ForRequest(projectID, header) == Zero
  {
  }

  /** A header starting with '/' gives the zero Logger. */
  lemma ForRequestLeadingSeparator(projectID: string, rest: string)
    ensures ForRequest(projectID, "/" + rest) == Zero
  {
  }

  /** With a non-empty trace id before the first '/', the trace is always set (an
      all-zero id included) and the span id is the '/' and what follows it up to the
      first ';'. */
  lemma ForRequestSpan(projectID: string, traceID: string, span: string, options: string)
    requires projectID != "" && traceID != ""
    requires '/' !in traceID && ';' !in span
    ensures ForRequest(projectID, traceID + "/" + span + ";" + options)
         == Logger(TraceName(projectID, traceID), "/" + span)
  {
    var rest := span + ";" + options;
    assert traceID + "/" + span + ";" + options == traceID + "/" + rest;
    SplitAtSeparator(traceID, rest);
    SplitAtSemicolon(span, options);
  }

  /** Within `"/" + span + ";" + options`, the first ';' ends the span id. */
  lemma SplitAtSemicolon(span: string, options: string)
    requires ';' !in span
    ensures SpanID("/" + (span + ";" + options)) == "/" + span
  {
    var after := "/" + (span + ";" + options);
    assert ';' !in "/" + span;
    assert after == ("/" + span) + ";" + options;
    IndexByteAfter("/" + span, ';', options);
    assert after[..|span| + 1] == "/" + span;
  }

  /** The header `t + "/" + rest` seen by ForRequest: the first '/' is at |t|, h[0:i]
      is `t` and h[i:] is `"/" + rest`. */
  lemma SplitAtSeparator(t: string, rest: string)
    requires '/' !in t
    ensures var h := t + "/" + rest;
      IndexByte(h, '/') == |t| && h[0..|t|] == t && h[|t|..] == "/" + rest
  {
    IndexByteAfter(t, '/', rest);
    var h := t + "/" + rest;
    assert h[0..|t|] == t;
    assert h[|t|..] == "/" + rest;
  }

  /** With no ';' after the first '/', the trace is set and the span id stays empty. */
  lemma ForRequestNoOptions(projectID: string, traceID: string, rest: string)
    requires projectID != "" && traceID != ""
    requires '/' !in traceID && ';' !in rest
    ensures ForRequest(projectID, traceID + "/" + rest) == Logger(TraceName(projectID, traceID), "")
  {
    SplitAtSeparator(traceID, rest);
  }

  /** The older `entry` struct. */
  datatype Entry = Entry(message: string, severity: string, trace: string, spanID: string)

  function Rank(key: string): nat {
    if key == MessageKey then 0
    else if key == SeverityKey then 1
    else if key == TraceKey then 2
    else if key == SpanKey then 3
    else 4
  }

  /** The members encoding/json writes for an `entry`: "message" always, the three
      `omitempty` fields only when non-empty, in declaration order. */
  function Fields(e: Entry): (fs: seq<Field>)
    ensures |fs| > 0 && fs[0] == Field(MessageKey, e.message)
    ensures forall i | 0 <= i < |fs| :: Rank(fs[i].key) < 4
    ensures Ordered(fs, Rank)
  {
    var withSeverity := [Field(MessageKey, e.message)] + OmitEmpty(SeverityKey, e.severity);
    var withTrace := withSeverity + OmitEmpty(TraceKey, e.trace);
    OrderedAppend([Field(MessageKey, e.message)], OmitEmpty(SeverityKey, e.severity), Rank, 1);
    OrderedAppend(withSeverity, OmitEmpty(TraceKey, e.trace), Rank, 2);
    OrderedAppend(withTrace, OmitEmpty(SpanKey, e.spanID), Rank, 3);
    withTrace + OmitEmpty(SpanKey, e.spanID)
  }

  /** Each member of the entry is found under its key exactly when it is written. */
  lemma FieldsLookup(e: Entry)
    ensures Lookup(Fields(e), MessageKey) == Some(e.message)
    ensures Lookup(Fields(e), SeverityKey) == (if e.severity == "" then None else Some(e.severity))
    ensures Lookup(Fields(e), TraceKey) == (if e.trace == "" then None else Some(e.trace))
    ensures Lookup(Fields(e), SpanKey) == (if e.spanID == "" then None else Some(e.spanID))
  {
    var withSeverity := [Field(MessageKey, e.message)] + OmitEmpty(SeverityKey, e.severity);
    var withTrace := withSeverity + OmitEmpty(TraceKey, e.trace);
    LookupAppendOmitEmpty([Field(MessageKey, e.message)], SeverityKey, e.severity, SeverityKey);
    LookupAppendOmitEmpty([Field(MessageKey, e.message)], SeverityKey, e.severity, TraceKey);
    LookupAppendOmitEmpty([Field(MessageKey, e.message)], SeverityKey, e.severity, SpanKey);
    LookupAppendOmitEmpty(withSeverity, TraceKey, e.trace, MessageKey);
    LookupAppendOmitEmpty(withSeverity, TraceKey, e.trace, SeverityKey);
    LookupAppendOmitEmpty(withSeverity, TraceKey, e.trace, TraceKey);
    LookupAppendOmitEmpty(withSeverity, TraceKey, e.trace, SpanKey);
    LookupAppendOmitEmpty(withTrace, SpanKey, e.spanID, MessageKey);
    LookupAppendOmitEmpty(withTrace, SpanKey, e.spanID, SeverityKey);
    LookupAppendOmitEmpty(withTrace, SpanKey, e.spanID, TraceKey);
    LookupAppendOmitEmpty(withTrace, SpanKey, e.spanID, SpanKey);
  }

  datatype Write = Write(stream: Stream, fields: seq<Field>)

  /** logs: stderr for Error and above, stdout otherwise, and the entry's members. */
  function Logs(s: Severity, l: Logger, msg: string): (w: Write)
    ensures w.stream == File(s)
    ensures 1 <= |w.fields| <= 4 && w.fields[0] == Field(MessageKey, msg)
  {
    var f := if s >= Error then Stderr else Stdout;
    Write(f, Fields(Entry(msg, String(s), l.trace, l.spanID)))
  }

  /** What a call writes: the message always; severity, trace and span id only when
      non-empty; error-ish severities to stderr, the same choice as severity.File. */
  lemma LogsEntry(s: Severity, l: Logger, msg: string)
    ensures var w := Logs(s, l, msg);
      && w.fields[0] == Field(MessageKey, msg)
      && (Lookup(w.fields, SeverityKey).Some? <==> s in All[1..8])
      && (s in All[1..8] ==> Lookup(w.fields, SeverityKey) == Some(String(s)))
      && (Lookup(w.fields, TraceKey).Some? <==> l.trace != "")
      && (Lookup(w.fields, SpanKey).Some? <==> l.spanID != "")
      && (w.stream == Stderr <==> s >= Error)
      && w.stream == File(s)
  {
    NamedIff(s);
    FieldsLookup(Entry(msg, String(s), l.trace, l.spanID));
  }

  /** Package-level functions pass `Logger{}`: no trace and no span id, ever. */
  lemma PackageLogsUntraced(s: Severity, msg: string)
    ensures Lookup(Logs(s, Zero, msg).fields, TraceKey) == None
    ensures Lookup(Logs(s, Zero, msg).fields, SpanKey) == None
  {
    FieldsLookup(Entry(msg, String(s), "", ""));
  }

  /** `glog.Print("Test")` writes exactly {"message":"Test"} to stdout. */
  lemma PrintExample()
    ensures Logs(Default, Zero, "Test") == Write(Stdout, [Field(MessageKey, "Test")])
  {
  }

  /** `glog.Infof("Hello %q!", "Google")` writes the formatted message with severity INFO. */
  lemma InfofExample()
    ensures Logs(Info, Zero, "Hello \"Google\"!")
         == Write(Stdout, [Field(MessageKey, "Hello \"Google\"!"), Field(SeverityKey, "INFO")])
  {
  }
}
