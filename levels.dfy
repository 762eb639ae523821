/** The severity model shared by both versions of the logger: a 32-bit integer
    enumeration spaced by 100, its uppercase name, and the stream it is written to.
    glog.go and glog/glog.go declare the type, its constants and its name switch
    with the same text, so they are modelled once. Only glog.go has the File method;
    the older `logs` makes the same comparison inline. */
module Levels {

  /** Go's `type severity int32`. */
  newtype Severity = x: int | -0x8000_0000 <= x < 0x8000_0000

  const Default: Severity := 0
  const Debug: Severity := 100
  const Info: Severity := 200
  const Notice: Severity := 300
  const Warning: Severity := 400
  const Error: Severity := 500
  const Critical: Severity := 600
  const Alert: Severity := 700
  const Emergency: Severity := 800

  /** The nine constants in declaration order (`iota * 100`). */
  const All: seq<Severity> := [Default, Debug, Info, Notice, Warning, Error, Critical, Alert, Emergency]

  /** The process's two output streams. */
  datatype Stream = Stdout | Stderr

  /** severity.String: the uppercase name of the seven levels its switch lists;
      every other value, Default and Emergency included, has the empty name. */
  function String(s: Severity): (name: string)
    ensures name != "" ==> Debug <= s <= Alert && s as int % 100 == 0
    ensures |name| <= 8
  {
    if s == Debug then "DEBUG"
    else if s == Info then "INFO"
    else if s == Notice then "NOTICE"
    else if s == Warning then "WARNING"
    else if s == Error then "ERROR"
    else if s == Critical then "CRITICAL"
    else if s == Alert then "ALERT"
    else ""
  }

  /** severity.File: the stream an entry of severity `s` is written to. */
  function File(s: Severity): (f: Stream)
    ensures String(s) in ["ERROR", "CRITICAL", "ALERT"] ==> f == Stderr
    ensures String(s) in ["DEBUG", "INFO", "NOTICE", "WARNING"] ==> f == Stdout
  {
    if s >= Error then Stderr else Stdout
  }

  /** The constants are the multiples of 100 from 0 to 800, strictly increasing,
      so the escalation order is the integer order. */
  lemma AllAscending()
    ensures |All| == 9
    ensures forall i | 0 <= i < |All| :: All[i] as int == 100 * i
    ensures forall i, j | 0 <= i < j < |All| :: All[i] < All[j]
  {
  }

  /** The name of each constant, in declaration order: the first and the last have none. */
  lemma NameTable()
    ensures String(Default) == "" && String(Emergency) == ""
    ensures String(Debug) == "DEBUG" && String(Info) == "INFO" && String(Notice) == "NOTICE"
    ensures String(Warning) == "WARNING" && String(Error) == "ERROR"
    ensures String(Critical) == "CRITICAL" && String(Alert) == "ALERT"
  {
  }

  /** A value has a name exactly when it is one of the seven levels from Debug to Alert. */
  lemma NamedIff(s: Severity)
    ensures String(s) != "" <==> s in All[1..8]
  {
    assert All[1..8] == [Debug, Info, Notice, Warning, Error, Critical, Alert];
  }

  /** Distinct named levels have distinct names, so a non-empty name identifies its level. */
  lemma NameInjective(s1: Severity, s2: Severity)
    requires String(s1) == String(s2) != ""
    ensures s1 == s2
  {
  }

  /** Routing is monotone in the severity: once a level goes to stderr, every higher one does too. */
  lemma FileMonotone(s1: Severity, s2: Severity)
    requires s1 <= s2
    ensures File(s1) == Stderr ==> File(s2) == Stderr
    ensures File(s2) == Stdout ==> File(s1) == Stdout
  {
  }

  /** Exactly Error and above go to stderr; among the constants that is the last four. */
  lemma FileIffErrorish(s: Severity)
    ensures File(s) == Stderr <==> s >= Error
    ensures File(s) == Stderr && s in All ==> s in All[5..]
    ensures File(s) == Stdout && s in All ==> s in All[..5]
  {
  }
}
