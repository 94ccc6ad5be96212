/** The Jenkins syslog logger plugin: its settings, how a submitted form
    becomes those settings, and how the settings are applied to the root
    logger's handler list. */
module SyslogLogger {
  import opened JavaLang
  import opened Jul
  import opened SyslogClient
  import opened RootLogging

  const DEFAULT_SYSLOG_SERVER_PORT: Int32 := 514
  const DEFAULT_LEVEL_FILTER := FINE
  const DEFAULT_APP_NAME := "jenkins"
  const DEFAULT_FACILITY := USER
  const DEFAULT_MESSAGE_FORMAT := RFC_3164

  /** The name of the plugin's own logger, stamped on the confirmation. */
  const LOGGER_NAME := "org.jenkinsci.plugins.sysloglogger.SyslogLoggerPlugin"

  // ---------------------------------------------------------------------
  // The two static helpers

  /** `trimToNull`: null for a null or blank string, otherwise the string
      itself, untrimmed. */
  function TrimToNull(value: Option<string>): (r: Option<string>)
    ensures r.None? <==> value.None? || IsBlank(value.value)
    ensures r.Some? ==> r == value
  {
    if value.None? then None
    else
      TrimEmptyIff(value.value);
      if Trim(value.value) == [] then None else value
  }

  /** `defaultValue`: the default exactly when the value is null. */
  function DefaultValue<T>(value: Option<T>, default: Option<T>): (r: Option<T>)
    ensures value.None? ==> r == default
    ensures value.Some? ==> r == value
    ensures default.Some? ==> r.Some?
  {
    if value.None? then default else value
  }

  // ---------------------------------------------------------------------
  // SyslogTransport

  datatype SyslogTransport = UDP | TCP | TCP_SSL

  const DEFAULT_SYSLOG_TRANSPORT := UDP

  /** The enum constant's name, as `name()` gives it. */
  function Name(t: SyslogTransport): string {
    match t
    case UDP => "UDP"
    case TCP => "TCP"
    case TCP_SSL => "TCP_SSL"
  }

  /** `label()`: the text shown to the user, which is the constant's name
      except for TCP_SSL. */
  function Label(t: SyslogTransport): (r: string)
    ensures t != TCP_SSL ==> r == Name(t)
    ensures t == TCP_SSL ==> r != Name(t)
  {
    match t
    case UDP => "UDP"
    case TCP => "TCP"
    case TCP_SSL => "TCP + SSL"
  }

  /** `create()`: the kind of sender the transport builds; only TCP_SSL
      turns SSL on. A plain TCP sender keeps the library's default flag,
      taken to be off. */
  function Create(t: SyslogTransport): (k: SenderKind)
    ensures k.UdpSender? <==> t == UDP
    ensures k.TcpSender? ==> (k.ssl <==> t == TCP_SSL)
  {
    match t
    case UDP => UdpSender
    case TCP => TcpSender(false)
    case TCP_SSL => TcpSender(true)
  }

  /** `SyslogTransport.valueOf`: the constant with that name; null and
      unknown names throw. */
  function TransportValueOf(name: Option<string>): (r: Result<SyslogTransport>)
    ensures name.None? ==> r == Throw(NullPointerException)
    ensures r.Ok? ==> name == Some(Name(r.value))
    ensures r.Throw? && name.Some? ==> r.error == IllegalArgumentException
  {
    match name
    case None => Throw(NullPointerException)
    case Some(n) =>
      if n == "UDP" then Ok(UDP)
      else if n == "TCP" then Ok(TCP)
      else if n == "TCP_SSL" then Ok(TCP_SSL)
      else Throw(IllegalArgumentException)
  }

  // ---------------------------------------------------------------------
  // The submitted form and the lookups into libraries we cannot see

  /** The submitted form, as `optString` and `optInt` read it: a key has a
      text reading, an integer reading, both or neither. */
  datatype Form = Form(strings: map<string, string>, ints: map<string, Int32>)

  /** `optString`: the empty string for an absent key. */
  function OptString(form: Form, key: string): string {
    if key in form.strings then form.strings[key] else ""
  }

  /** `optInt`: zero for an absent key. */
  function OptInt(form: Form, key: string): Int32 {
    if key in form.ints then form.ints[key] else 0
  }

  /** `getString`: an absent key throws. */
  function GetString(form: Form, key: string): Result<string> {
    if key in form.strings then Ok(form.strings[key]) else Throw(JSONException)
  }

  /** The lookups into tables of the logging and syslog libraries.
      `findLevel` and `fromLabel` may return a value, return null or throw;
      `Level.parse` returns a level or throws; `MessageFormat.valueOf` is
      the enum lookup over the constants `values()` lists. */
  datatype Lookups = Lookups(
    findLevel: Option<string> -> Result<Option<Level>>,             // LevelHelper.findLevel
    parseLevel: string -> Result<Level>,                            // Level.parse
    facilityFromLabel: Option<string> -> Result<Option<Facility>>,  // Facility.fromLabel
    messageFormats: seq<MessageFormat>)                             // MessageFormat.values()

  // ---------------------------------------------------------------------
  // The eight configuration fields

  datatype Settings = Settings(
    transport: Option<SyslogTransport>,
    hostname: Option<string>,
    port: Int32,
    levelFilter: Option<Level>,
    appName: Option<string>,
    messageHostname: Option<string>,
    facility: Option<Facility>,
    messageFormat: Option<MessageFormat>)

  /** The field initialisers. */
  const DEFAULT_SETTINGS := Settings(
    Some(DEFAULT_SYSLOG_TRANSPORT), None, DEFAULT_SYSLOG_SERVER_PORT,
    Some(DEFAULT_LEVEL_FILTER), Some(DEFAULT_APP_NAME), None,
    Some(DEFAULT_FACILITY), Some(DEFAULT_MESSAGE_FORMAT))

  /** The fields after `configure`'s assignments, and the exception that
      cut them short, if any: an exception leaves the earlier assignments
      in place and the later ones undone. */
  datatype Configured = Configured(settings: Settings, error: Option<Exception>)

  /** The eight assignments of `configure`, in their order. The first
      statement reads and resolves the transport name. Once all of them
      have run, none of the fields that have a default is null. The
      function is split into stages only to keep each proof small. */
  function ConfigureFields(s: Settings, form: Form, lookups: Lookups): (r: Configured)
    ensures r.error.None? ==>
      && r.settings.transport.Some? && r.settings.levelFilter.Some? && r.settings.appName.Some?
      && r.settings.facility.Some? && r.settings.messageFormat.Some?
  {
    match GetString(form, "syslogTransport")
    case Throw(e) => Configured(s, Some(e))
    case Ok(name) =>
      match TransportValueOf(Some(name))
      case Throw(e) => Configured(s, Some(e))
      case Ok(t) => ConfigureLevel(AssignTarget(s, t, form), form, lookups)
  }

  /** The transport, the server hostname and the port; the other fields
      are left as they are. */
  function AssignTarget(s: Settings, t: SyslogTransport, form: Form): (r: Settings)
    ensures r.transport == Some(t)
    ensures r.(transport := s.transport, hostname := s.hostname, port := s.port) == s
  {
    s.(transport := DefaultValue(Some(t), Some(UDP)),
       hostname := TrimToNull(Some(OptString(form, "syslogServerHostname"))),
       port := DefaultValue(Some(OptInt(form, "syslogServerPort")), Some(DEFAULT_SYSLOG_SERVER_PORT)).value)
  }

  /** The level lookup, then the level, the app name and the message
      hostname, then the later stages; the transport, hostname and port are
      left as they are. */
  function ConfigureLevel(s: Settings, form: Form, lookups: Lookups): (r: Configured)
    ensures r.settings.transport == s.transport && r.settings.hostname == s.hostname && r.settings.port == s.port
    ensures r.error.None? ==>
      && r.settings.levelFilter.Some? && r.settings.appName.Some?
      && r.settings.facility.Some? && r.settings.messageFormat.Some?
  {
    match lookups.findLevel(TrimToNull(Some(OptString(form, "levelFilter"))))
    case Throw(e) => Configured(s, Some(e))
    case Ok(level) =>
      ConfigureFacility(
        s.(levelFilter := DefaultValue(level, Some(DEFAULT_LEVEL_FILTER)),
           appName := DefaultValue(TrimToNull(Some(OptString(form, "appName"))), Some(DEFAULT_APP_NAME)),
           messageHostname := TrimToNull(Some(OptString(form, "messageHostname")))),
        form, lookups)
  }

  /** The facility lookup and the facility, then the message format; no
      other field changes. */
  function ConfigureFacility(s: Settings, form: Form, lookups: Lookups): (r: Configured)
    ensures r.settings.(facility := s.facility, messageFormat := s.messageFormat) == s
    ensures r.error.None? ==> r.settings.facility.Some? && r.settings.messageFormat.Some?
  {
    match lookups.facilityFromLabel(TrimToNull(Some(OptString(form, "facility"))))
    case Throw(e) => Configured(s, Some(e))
    case Ok(facility) =>
      ConfigureFormat(s.(facility := DefaultValue(facility, Some(DEFAULT_FACILITY))), form, lookups)
  }

  /** The message-format lookup and the message format. The text is not
      trimmed, and the enum lookup never returns null, so the RFC_3164
      fallback is never taken: the stored format is the constant the form
      names (`ConfigureFormatStoresNamed`), or the lookup throws and nothing
      changes. */
  function ConfigureFormat(s: Settings, form: Form, lookups: Lookups): (r: Configured)
    ensures r.error.None? ==> r.settings.messageFormat.Some?
    ensures r.error.Some? ==> r.settings == s && r.error == Some(IllegalArgumentException)
    ensures r.settings.(messageFormat := s.messageFormat) == s
  {
    match MessageFormatValueOf(lookups.messageFormats, Some(OptString(form, "messageFormat")))
    case Throw(e) => Configured(s, Some(e))
    case Ok(format) =>
      Configured(s.(messageFormat := DefaultValue(Some(format), Some(DEFAULT_MESSAGE_FORMAT))), None)
  }

  /** A facility lookup that returns leaves the format stage to run on
      the settings with the facility assigned. */
  lemma FacilityStage(s: Settings, form: Form, lookups: Lookups)
    requires lookups.facilityFromLabel(TrimToNull(Some(OptString(form, "facility")))).Ok?
    ensures ConfigureFacility(s, form, lookups) == ConfigureFormat(s.(facility :=
      DefaultValue(lookups.facilityFromLabel(TrimToNull(Some(OptString(form, "facility")))).value, Some(DEFAULT_FACILITY))), form, lookups)
  {
  }

  // ---------------------------------------------------------------------
  // What applySettings does to the handler list

  const CONFIRMATION_PREFIX := "Jenkins configured to output log messages to syslog server "

  /** The text of the confirmation record: the fixed prefix, then the
      hostname, and the transport's label at the end. */
  function ConfirmationMessage(host: string, port: Int32, t: SyslogTransport): (r: string)
    ensures |r| >= |CONFIRMATION_PREFIX| + |host| + |Label(t)|
    ensures r[..|CONFIRMATION_PREFIX|] == CONFIRMATION_PREFIX
    ensures r[|CONFIRMATION_PREFIX|..|CONFIRMATION_PREFIX| + |host|] == host
    ensures r[|r| - |Label(t)|..] == Label(t)
  {
    CONFIRMATION_PREFIX + host + ":" + IntToString(port) + " on transport " + Label(t)
  }

  function ConfirmationRecord(host: string, port: Int32, t: SyslogTransport): LogRecord {
    LogRecord(INFO, ConfirmationMessage(host, port, t), Some(LOGGER_NAME))
  }

  /** The sender and handler `applySettings` builds for a transport and
      the current settings, with the confirmation record published. */
  function InstalledHandler(t: SyslogTransport, s: Settings): SyslogHandler
    requires s.hostname.Some?
  {
    SyslogHandler(
      Sender(Create(t), s.hostname, s.port, s.messageFormat),
      s.levelFilter, s.appName, s.messageHostname, s.facility,
      [ConfirmationRecord(s.hostname.value, s.port, t)])
  }

  /** The handler list after `applySettings`, and how the call ended. */
  datatype Applied = Applied(handlers: seq<Handler>, outcome: Outcome)

  /** `applySettings` on a handler list: drop every syslog handler; with a
      null or empty hostname stop there; with a null transport throw when
      the sender is created; otherwise append the new handler. */
  function Apply(hs: seq<Handler>, s: Settings): (r: Applied)
    ensures r.outcome ==
      if s.hostname.Some? && s.hostname.value != "" && s.transport.None?
      then Abrupt(NullPointerException) else Normal
    ensures |r.handlers| <= |hs| + 1
  {
    var kept := WithoutSyslog(hs);
    if s.hostname.None? || s.hostname.value == "" then Applied(kept, Normal)
    else
      match s.transport
      case None => Applied(kept, Abrupt(NullPointerException))
      case Some(t) => Applied(kept + [Syslog(InstalledHandler(t, s))], Normal)
  }

  /** The loop at the head of `applySettings`: walk a snapshot of the root
      logger's handlers and remove each syslog handler from the logger. */
  method RemoveSyslogHandlers(root: RootLogger)
    modifies root
    ensures root.handlers == WithoutSyslog(old(root.handlers))
  {
    var snapshot := root.handlers;  // getHandlers() returns a copy
    var i := 0;
    while i < |snapshot|
      invariant 0 <= i <= |snapshot|
      invariant root.handlers == WithoutSyslog(snapshot[..i]) + snapshot[i..]
    {
      var h := snapshot[i];
      RemoveStep(snapshot, i);
      if h.Syslog? {
        root.RemoveHandler(h);
      }
      assert root.handlers == WithoutSyslog(snapshot[..i + 1]) + snapshot[i + 1..];
      i := i + 1;
    }
    assert snapshot[..i] == snapshot && snapshot[i..] == [];
    assert WithoutSyslog(snapshot) + [] == WithoutSyslog(snapshot);
  }

  // ---------------------------------------------------------------------
  // The plugin object

  class SyslogLoggerPlugin {
    var syslogTransport: Option<SyslogTransport>
    var syslogServerHostname: Option<string>
    var syslogServerPort: Int32
    var levelFilter: Option<Level>
    var appName: Option<string>
    var messageHostname: Option<string>
    var facility: Option<Facility>
    var messageFormat: Option<MessageFormat>

    /** The root logger, `Logger.getLogger("")`. */
    const root: RootLogger

    /** The eight fields as one value. */
    function Fields(): Settings
      reads this
    {
      Settings(syslogTransport, syslogServerHostname, syslogServerPort, levelFilter,
               appName, messageHostname, facility, messageFormat)
    }

    /** The field initialisers, then `load()`: the persisted settings when
        there are any. */
    constructor (root: RootLogger, loaded: Option<Settings>)
      ensures this.root == root
      ensures Fields() == if loaded.Some? then loaded.value else DEFAULT_SETTINGS
    {
      this.root := root;
      var s := if loaded.Some? then loaded.value else DEFAULT_SETTINGS;
      syslogTransport, syslogServerHostname, syslogServerPort := s.transport, s.hostname, s.port;
      levelFilter, appName, messageHostname := s.levelFilter, s.appName, s.messageHostname;
      facility, messageFormat := s.facility, s.messageFormat;
    }

    /** The whole Java constructor: construct and load, then apply the
        settings; `outcome` is an exception that would escape it. */
    static method New(root: RootLogger, loaded: Option<Settings>)
      returns (plugin: SyslogLoggerPlugin, outcome: Outcome)
      modifies root
      ensures fresh(plugin) && plugin.root == root
      ensures plugin.Fields() == if loaded.Some? then loaded.value else DEFAULT_SETTINGS
      ensures root.handlers == Apply(old(root.handlers), plugin.Fields()).handlers
      ensures outcome == Apply(old(root.handlers), plugin.Fields()).outcome
    {
      plugin := new SyslogLoggerPlugin(root, loaded);
      outcome := plugin.ApplySettings();
    }

    /** `configure`: assign the fields from the form one by one, then
        (persistence aside) apply them. It answers true unless something
        throws. */
    method Configure(form: Form, lookups: Lookups) returns (result: Result<bool>)
      modifies this, root
      ensures Fields() == ConfigureFields(old(Fields()), form, lookups).settings
      ensures var c := ConfigureFields(old(Fields()), form, lookups);
        if c.error.Some? then
          result == Throw(c.error.value) && root.handlers == old(root.handlers)
        else
          var a := Apply(old(root.handlers), c.settings);
          root.handlers == a.handlers &&
          result == if a.outcome.Normal? then Ok(true) else Throw(a.outcome.error)
    {
      var error := AssignFields(form, lookups);
      if error.Some? { return Throw(error.value); }
      // save() persists the fields; persistence is not modelled
      var outcome := ApplySettings();
      result := if outcome.Normal? then Ok(true) else Throw(outcome.error);
    }

    /** The eight assignments of `configure`, stopping at the first
        exception. Java runs them as one block; here they are split over
        four methods, one per stage function, only to keep each proof
        small: this one assigns the transport, hostname and port. */
    method AssignFields(form: Form, lookups: Lookups) returns (error: Option<Exception>)
      modifies this
      ensures Fields() == ConfigureFields(old(Fields()), form, lookups).settings
      ensures error == ConfigureFields(old(Fields()), form, lookups).error
    {
      ghost var s0 := Fields();
      var name := GetString(form, "syslogTransport");
      if name.Throw? { return Some(name.error); }
      var t := TransportValueOf(Some(name.value));
      if t.Throw? { return Some(t.error); }
      syslogTransport := DefaultValue(Some(t.value), Some(UDP));
      syslogServerHostname := TrimToNull(Some(OptString(form, "syslogServerHostname")));
      syslogServerPort := DefaultValue(Some(OptInt(form, "syslogServerPort")), Some(DEFAULT_SYSLOG_SERVER_PORT)).value;
      assert Fields() == AssignTarget(s0, t.value, form);
      assert ConfigureFields(s0, form, lookups) == ConfigureLevel(Fields(), form, lookups);
      error := AssignLevel(form, lookups);
    }

    /** The level lookup and the level, app name and message hostname
        assignments, then the facility and format stages. */
    method AssignLevel(form: Form, lookups: Lookups) returns (error: Option<Exception>)
      modifies this
      ensures Fields() == ConfigureLevel(old(Fields()), form, lookups).settings
      ensures error == ConfigureLevel(old(Fields()), form, lookups).error
    {
      var level := lookups.findLevel(TrimToNull(Some(OptString(form, "levelFilter"))));
      if level.Throw? { return Some(level.error); }
      levelFilter := DefaultValue(level.value, Some(DEFAULT_LEVEL_FILTER));
      appName := DefaultValue(TrimToNull(Some(OptString(form, "appName"))), Some(DEFAULT_APP_NAME));
      messageHostname := TrimToNull(Some(OptString(form, "messageHostname")));
      error := AssignFacility(form, lookups);
    }

    /** The facility lookup and assignment, then the format stage. */
    method AssignFacility(form: Form, lookups: Lookups) returns (error: Option<Exception>)
      modifies this
      ensures Fields() == ConfigureFacility(old(Fields()), form, lookups).settings
      ensures error == ConfigureFacility(old(Fields()), form, lookups).error
    {
      var fac := lookups.facilityFromLabel(TrimToNull(Some(OptString(form, "facility"))));
      if fac.Throw? { return Some(fac.error); }
      ghost var s0 := Fields();
      FacilityStage(s0, form, lookups);
      facility := DefaultValue(fac.value, Some(DEFAULT_FACILITY));
      assert Fields() == s0.(facility := DefaultValue(fac.value, Some(DEFAULT_FACILITY)));
      error := AssignFormat(form, lookups);
    }

    /** The message-format lookup and assignment. */
    method AssignFormat(form: Form, lookups: Lookups) returns (error: Option<Exception>)
      modifies this
      ensures Fields() == ConfigureFormat(old(Fields()), form, lookups).settings
      ensures error == ConfigureFormat(old(Fields()), form, lookups).error
    {
      var format := MessageFormatValueOf(lookups.messageFormats, Some(OptString(form, "messageFormat")));
      if format.Throw? { return Some(format.error); }
      messageFormat := DefaultValue(Some(format.value), Some(DEFAULT_MESSAGE_FORMAT));
      error := None;
    }

    /** `applySettings`: remove the syslog handlers from a snapshot of the
        root logger's list, then, for a non-empty hostname, build a sender
        and handler, publish the confirmation through it and add it. */
    method ApplySettings() returns (outcome: Outcome)
      modifies root
      ensures root.handlers == Apply(old(root.handlers), Fields()).handlers
      ensures outcome == Apply(old(root.handlers), Fields()).outcome
    {
      RemoveSyslogHandlers(root);

      if syslogServerHostname.None? || syslogServerHostname.value == "" {
        // LOGGER.fine: local diagnostics only
        return Normal;
      }
      if syslogTransport.None? {
        return Abrupt(NullPointerException);
      }
      var t := syslogTransport.value;
      var kind := Create(t);
      var sender: Sender;
      match kind {
        case UdpSender =>
          sender := Sender(kind, syslogServerHostname, syslogServerPort, messageFormat);
        case TcpSender(_) =>
          sender := Sender(kind, syslogServerHostname, syslogServerPort, messageFormat);
      }
      var handler := SyslogHandler(sender, levelFilter, appName, messageHostname, facility, []);
      var record := LogRecord(INFO, ConfirmationMessage(syslogServerHostname.value, syslogServerPort, t), Some(LOGGER_NAME));
      handler := handler.Publish(record);
      assert handler == InstalledHandler(t, Fields());
      // LOGGER.info: local diagnostics only
      root.AddHandler(Syslog(handler));
      outcome := Normal;
    }

    // -------------------------------------------------------------------
    // Getters

    function GetSyslogServerHostname(): Option<string>
      reads this
    {
      syslogServerHostname
    }

    function GetSyslogServerPort(): Int32
      reads this
    {
      syslogServerPort
    }

    function GetAppName(): Option<string>
      reads this
    {
      appName
    }

    function GetMessageHostname(): Option<string>
      reads this
    {
      messageHostname
    }

    /** The level's name, null for no level. */
    function GetLevelFilter(): (r: Option<string>)
      reads this
      ensures r.None? <==> levelFilter.None?
      ensures r.Some? ==> r.value == levelFilter.value.name
    {
      if levelFilter.None? then None else Some(levelFilter.value.name)
    }

    /** The facility's label, null for no facility. */
    function GetFacility(): (r: Option<string>)
      reads this
      ensures r.None? <==> facility.None?
      ensures r.Some? ==> r.value == facility.value.labelName
    {
      if facility.None? then None else Some(facility.value.labelName)
    }

    /** The format's enum name, null for no format. */
    function GetMessageFormat(): (r: Option<string>)
      reads this
      ensures r.None? <==> messageFormat.None?
      ensures r.Some? ==> r.value == messageFormat.value.name
    {
      if messageFormat.None? then None else Some(messageFormat.value.name)
    }

    /** The transport's enum name, null for no transport; reading it back
        with `valueOf` gives the transport again. */
    function GetSyslogTransport(): (r: Option<string>)
      reads this
      ensures r.None? <==> syslogTransport.None?
      ensures r.Some? ==> TransportValueOf(r) == Ok(syslogTransport.value)
    {
      if syslogTransport.None? then None else Some(Name(syslogTransport.value))
    }

    // -------------------------------------------------------------------
    // Setters

    method SetSyslogServerHostname(value: Option<string>)
      modifies this
      ensures GetSyslogServerHostname() == value
      ensures Fields() == old(Fields()).(hostname := value)
    {
      syslogServerHostname := value;
    }

    method SetSyslogServerPort(value: Int32)
      modifies this
      ensures GetSyslogServerPort() == value
      ensures Fields() == old(Fields()).(port := value)
    {
      syslogServerPort := value;
    }

    method SetMessageHostname(value: Option<string>)
      modifies this
      ensures GetMessageHostname() == value
      ensures Fields() == old(Fields()).(messageHostname := value)
    {
      messageHostname := value;
    }

    method SetAppName(value: Option<string>)
      modifies this
      ensures GetAppName() == value
      ensures Fields() == old(Fields()).(appName := value)
    {
      appName := value;
    }

    /** null clears the level; otherwise `Level.parse`, whose exception
        leaves the field as it was. */
    method SetLevelFilter(value: Option<string>, lookups: Lookups) returns (outcome: Outcome)
      modifies this
      ensures value.None? ==> outcome == Normal && Fields() == old(Fields()).(levelFilter := None)
      ensures value.Some? ==> match lookups.parseLevel(value.value)
        case Ok(l) => outcome == Normal && Fields() == old(Fields()).(levelFilter := Some(l))
        case Throw(e) => outcome == Abrupt(e) && Fields() == old(Fields())
    {
      if value.None? {
        levelFilter := None;
        return Normal;
      }
      var l := lookups.parseLevel(value.value);
      if l.Throw? { return Abrupt(l.error); }
      levelFilter := Some(l.value);
      outcome := Normal;
    }

    /** null clears the facility; otherwise `Facility.fromLabel`. */
    method SetFacility(value: Option<string>, lookups: Lookups) returns (outcome: Outcome)
      modifies this
      ensures value.None? ==> outcome == Normal && Fields() == old(Fields()).(facility := None)
      ensures value.Some? ==> match lookups.facilityFromLabel(value)
        case Ok(f) => outcome == Normal && Fields() == old(Fields()).(facility := f)
        case Throw(e) => outcome == Abrupt(e) && Fields() == old(Fields())
    {
      if value.None? {
        facility := None;
        return Normal;
      }
      var f := lookups.facilityFromLabel(value);
      if f.Throw? { return Abrupt(f.error); }
      facility := f.value;
      outcome := Normal;
    }

    /** null clears the format; otherwise `MessageFormat.valueOf`, which
        throws for a name that is not a constant's. */
    method SetMessageFormat(value: Option<string>, lookups: Lookups) returns (outcome: Outcome)
      modifies this
      ensures value.None? ==> outcome == Normal && Fields() == old(Fields()).(messageFormat := None)
      ensures value.Some? ==> match MessageFormatValueOf(lookups.messageFormats, value)
        case Ok(m) => outcome == Normal && Fields() == old(Fields()).(messageFormat := Some(m))
        case Throw(e) => outcome == Abrupt(e) && Fields() == old(Fields())
    {
      if value.None? {
        messageFormat := None;
        return Normal;
      }
      var m := MessageFormatValueOf(lookups.messageFormats, value);
      if m.Throw? { return Abrupt(m.error); }
      messageFormat := Some(m.value);
      outcome := Normal;
    }

    /** null clears the transport; otherwise `SyslogTransport.valueOf`,
        which throws for a name that is not a constant's. */
    method SetSyslogTransport(value: Option<string>) returns (outcome: Outcome)
      modifies this
      ensures value.None? ==> outcome == Normal && Fields() == old(Fields()).(transport := None)
      ensures value.Some? ==> match TransportValueOf(value)
        case Ok(t) => outcome == Normal && Fields() == old(Fields()).(transport := Some(t))
        case Throw(e) => outcome == Abrupt(e) && Fields() == old(Fields())
      ensures value == old(GetSyslogTransport()) ==> outcome == Normal && Fields() == old(Fields())
    {
      if value.None? {
        syslogTransport := None;
        return Normal;
      }
      var t := TransportValueOf(value);
      if t.Throw? { return Abrupt(t.error); }
      syslogTransport := Some(t.value);
      outcome := Normal;
    }
  }
}
