/** Records of the syslog client library's objects (com.cloudbees.syslog).
    The library renders and ships messages; here its objects are only the
    settings the plugin gives them and the records handed to them. */
module SyslogClient {
  import opened JavaLang
  import opened Jul

  /** A syslog facility: its numeric code and its label. */
  datatype Facility = Facility(numericalCode: nat, labelName: string)

  /** Facility 1, user-level messages. */
  const USER := Facility(1, "USER")

  /** The name of an enum constant, which is a Java identifier and so never
      empty. */
  type EnumName = s: string | s != [] witness "A"

  /** A message format constant, known by its enum name. */
  datatype MessageFormat = MessageFormat(name: EnumName)

  const RFC_3164 := MessageFormat("RFC_3164")

  /** No constant in `values` is called `name`. */
  predicate NoneNamed(values: seq<MessageFormat>, name: string) {
    values == [] || (values[0].name != name && NoneNamed(values[1..], name))
  }

  /** Enum names are never empty, so no constant is called "". */
  lemma {:induction false} NoneNamedEmpty(values: seq<MessageFormat>)
    ensures NoneNamed(values, "")
  {
    if values != [] {
      NoneNamedEmpty(values[1..]);
    }
  }

  /** `MessageFormat.valueOf`, the enum's own lookup over the constants
      that `values()` lists: null throws NullPointerException, a name that
      is no constant's throws IllegalArgumentException; it never returns
      null. */
  function MessageFormatValueOf(values: seq<MessageFormat>, name: Option<string>): (r: Result<MessageFormat>)
    ensures name.None? ==> r == Throw(NullPointerException)
    ensures r.Ok? ==> r.value in values && name == Some(r.value.name)
    ensures name.Some? ==> (r.Throw? <==> NoneNamed(values, name.value))
    ensures name.Some? && r.Throw? ==> r.error == IllegalArgumentException
  {
    match name
    case None => Throw(NullPointerException)
    case Some(n) =>
      if values == [] then Throw(IllegalArgumentException)
      else if values[0].name == n then Ok(values[0])
      else MessageFormatValueOf(values[1..], name)
  }

  /** The two sender classes: `UdpSyslogMessageSender`, and
      `TcpSyslogMessageSender` with its SSL flag. */
  datatype SenderKind = UdpSender | TcpSender(ssl: bool)

  /** A message sender and the settings the plugin gives it. */
  datatype Sender = Sender(
    kind: SenderKind,
    serverHostname: Option<string>,
    serverPort: Int32,
    messageFormat: Option<MessageFormat>)

  /** A `SyslogHandler`: its sender, its settings, and the records that
      have been published through it, oldest first. */
  datatype SyslogHandler = SyslogHandler(
    sender: Sender,
    levelFilter: Option<Level>,
    appName: Option<string>,
    messageHostname: Option<string>,
    facility: Option<Facility>,
    published: seq<LogRecord>)
  {
    /** `publish`: hand one record to the handler. */
    function Publish(r: LogRecord): (h: SyslogHandler)
      ensures h.published == published + [r]
      ensures h.(published := published) == this
    {
      this.(published := published + [r])
    }
  }
}
