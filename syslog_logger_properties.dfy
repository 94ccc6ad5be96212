/** What the plugin's settings logic promises, stated over the model. */
module SyslogLoggerProperties {
  import opened JavaLang
  import opened Jul
  import opened SyslogClient
  import opened RootLogging
  import opened SyslogLogger

  // ---------------------------------------------------------------------
  // trimToNull and defaultValue

  /** A second `defaultValue` with the same default changes nothing. */
  lemma DefaultValueIdempotent<T>(value: Option<T>, default: Option<T>)
    ensures DefaultValue(DefaultValue(value, default), default) == DefaultValue(value, default)
  {
  }

  /** A second `trimToNull` changes nothing. */
  lemma TrimToNullIdempotent(value: Option<string>)
    ensures TrimToNull(TrimToNull(value)) == TrimToNull(value)
  {
  }

  /** Leading or trailing spaces do not make a string blank, and they are
      kept: `trimToNull` does not trim. */
  lemma TrimToNullKeepsSpaces(core: string)
    requires core != [] && !IsBlank(core)
    ensures TrimToNull(Some(" " + core + " ")) == Some(" " + core + " ")
  {
    var i :| 0 <= i < |core| && !IsTrimmable(core[i]);
    assert (" " + core + " ")[i + 1] == core[i];
  }

  // ---------------------------------------------------------------------
  // SyslogTransport

  /** The transport table: each constant's sender kind, SSL flag and label. */
  lemma TransportTable()
    ensures Create(UDP) == UdpSender && Label(UDP) == "UDP"
    ensures Create(TCP) == TcpSender(false) && Label(TCP) == "TCP"
    ensures Create(TCP_SSL) == TcpSender(true) && Label(TCP_SSL) == "TCP + SSL"
  {
  }

  /** Every transport creates a UDP or a TCP sender, so the
      "Unsupported SyslogMessageSender" branch cannot be taken; and the
      sender is an SSL one exactly for TCP_SSL. */
  lemma CreateIsSupported(t: SyslogTransport)
    ensures Create(t).UdpSender? <==> t == UDP
    ensures Create(t).TcpSender? <==> t != UDP
    ensures Create(t).TcpSender? ==> (Create(t).ssl <==> t == TCP_SSL)
  {
  }

  /** Different transports build different senders and show different
      labels. */
  lemma TransportDistinct(t: SyslogTransport, u: SyslogTransport)
    ensures Create(t) == Create(u) ==> t == u
    ensures Label(t) == Label(u) ==> t == u
    ensures Name(t) == Name(u) ==> t == u
  {
  }

  /** `valueOf(name())` gives the constant back. */
  lemma TransportNameRoundTrip(t: SyslogTransport)
    ensures TransportValueOf(Some(Name(t))) == Ok(t)
  {
  }

  // ---------------------------------------------------------------------
  // configure

  /** A `configure` that throws at the first statement, for a missing
      "syslogTransport" key or a name that is no constant's, changes no
      field. */
  lemma ConfigureBadTransport(s: Settings, form: Form, lookups: Lookups)
    requires "syslogTransport" !in form.strings
      || TransportValueOf(Some(form.strings["syslogTransport"])).Throw?
    ensures ConfigureFields(s, form, lookups).settings == s
    ensures ConfigureFields(s, form, lookups).error ==
      Some(if "syslogTransport" !in form.strings then JSONException else IllegalArgumentException)
  {
  }

  /** What a completed `configure` stores: the transport named by the form
      (never the UDP default), the untrimmed hostname or null when blank,
      the form's integer port, the looked-up level or FINE for null, the
      untrimmed app name or "jenkins" when blank, the untrimmed message
      hostname or null when blank, the looked-up facility or USER for null,
      and the format constant the form names, untrimmed (never the RFC_3164
      fallback). */
  lemma ConfigureCompleted(s: Settings, form: Form, lookups: Lookups)
    requires ConfigureFields(s, form, lookups).error.None?
    ensures var c := ConfigureFields(s, form, lookups).settings;
      && "syslogTransport" in form.strings
      && c.transport.Some? && Name(c.transport.value) == form.strings["syslogTransport"]
      && c.hostname == BlankToNull(OptString(form, "syslogServerHostname"))
      && c.port == OptInt(form, "syslogServerPort")
      && lookups.findLevel(BlankToNull(OptString(form, "levelFilter"))).Ok?
      && c.levelFilter == DefaultValue(lookups.findLevel(BlankToNull(OptString(form, "levelFilter"))).value, Some(FINE))
      && c.appName == Some(if IsBlank(OptString(form, "appName")) then "jenkins" else OptString(form, "appName"))
      && c.messageHostname == BlankToNull(OptString(form, "messageHostname"))
      && lookups.facilityFromLabel(BlankToNull(OptString(form, "facility"))).Ok?
      && c.facility == DefaultValue(lookups.facilityFromLabel(BlankToNull(OptString(form, "facility"))).value, Some(USER))
      && c.messageFormat.Some? && c.messageFormat.value in lookups.messageFormats
      && c.messageFormat.value.name == OptString(form, "messageFormat")
  {
    var name := GetString(form, "syslogTransport");
    assert name.Ok?;
    var t := TransportValueOf(Some(name.value));
    assert t.Ok?;
    var s1 := AssignTarget(s, t.value, form);
    assert ConfigureFields(s, form, lookups) == ConfigureLevel(s1, form, lookups);
    BlankToNullIsTrimToNull(OptString(form, "syslogServerHostname"));
    BlankToNullIsTrimToNull(OptString(form, "levelFilter"));
    BlankToNullIsTrimToNull(OptString(form, "appName"));
    BlankToNullIsTrimToNull(OptString(form, "messageHostname"));
    BlankToNullIsTrimToNull(OptString(form, "facility"));
    var level := lookups.findLevel(TrimToNull(Some(OptString(form, "levelFilter"))));
    assert level.Ok?;
    var s2 := s1.(levelFilter := DefaultValue(level.value, Some(DEFAULT_LEVEL_FILTER)),
                  appName := DefaultValue(TrimToNull(Some(OptString(form, "appName"))), Some(DEFAULT_APP_NAME)),
                  messageHostname := TrimToNull(Some(OptString(form, "messageHostname"))));
    assert ConfigureLevel(s1, form, lookups) == ConfigureFacility(s2, form, lookups);
    var facility := lookups.facilityFromLabel(TrimToNull(Some(OptString(form, "facility"))));
    assert facility.Ok?;
    var s3 := s2.(facility := DefaultValue(facility.value, Some(DEFAULT_FACILITY)));
    assert ConfigureFacility(s2, form, lookups) == ConfigureFormat(s3, form, lookups);
    ConfigureFormatStoresNamed(s3, form, lookups);
  }

  /** The format `configure` stores is the enum constant whose name is
      the form's text, untrimmed; the RFC_3164 fallback is never stored. */
  lemma ConfigureFormatStoresNamed(s: Settings, form: Form, lookups: Lookups)
    requires ConfigureFormat(s, form, lookups).error.None?
    ensures var f := ConfigureFormat(s, form, lookups).settings.messageFormat;
      && f.Some? && f.value in lookups.messageFormats
      && f.value.name == OptString(form, "messageFormat")
  {
    var format := MessageFormatValueOf(lookups.messageFormats, Some(OptString(form, "messageFormat")));
    assert format.Ok?;
  }

  lemma BlankToNullIsTrimToNull(text: string)
    ensures TrimToNull(Some(text)) == BlankToNull(text)
  {
  }

  /** The form's blank test, with null for blank text. */
  function BlankToNull(text: string): Option<string> {
    if IsBlank(text) then None else Some(text)
  }

  /** The 514 default is never stored by `configure`: the port is the form's
      integer, 0 when the form has none. */
  lemma ConfigurePortNeverDefaulted(s: Settings, form: Form, lookups: Lookups)
    requires ConfigureFields(s, form, lookups).error.None?
    requires "syslogServerPort" !in form.ints
    ensures ConfigureFields(s, form, lookups).settings.port == 0
  {
    ConfigureCompleted(s, form, lookups);
  }

  /** A completed `configure` replaces all eight fields: the old ones leave
      no trace. */
  lemma ConfigureReplacesAll(s: Settings, t: Settings, form: Form, lookups: Lookups)
    requires ConfigureFields(s, form, lookups).error.None?
    ensures ConfigureFields(t, form, lookups) == ConfigureFields(s, form, lookups)
  {
    var name := GetString(form, "syslogTransport");
    assert name.Ok?;
    var tr := TransportValueOf(Some(name.value));
    assert tr.Ok?;
    var s1 := AssignTarget(s, tr.value, form);
    var t1 := AssignTarget(t, tr.value, form);
    assert ConfigureFields(s, form, lookups) == ConfigureLevel(s1, form, lookups);
    assert ConfigureFields(t, form, lookups) == ConfigureLevel(t1, form, lookups);
    var level := lookups.findLevel(TrimToNull(Some(OptString(form, "levelFilter"))));
    assert level.Ok?;
    var facility := lookups.facilityFromLabel(TrimToNull(Some(OptString(form, "facility"))));
    assert facility.Ok?;
    var format := MessageFormatValueOf(lookups.messageFormats, Some(OptString(form, "messageFormat")));
    assert format.Ok?;
  }

  /** When the form's message format names no constant, the last
      assignment throws IllegalArgumentException: the format keeps its old
      value, while the hostname, assigned earlier, already holds the form's. */
  lemma ConfigureFormatThrows(s: Settings, form: Form, lookups: Lookups)
    requires GetString(form, "syslogTransport").Ok?
    requires TransportValueOf(Some(GetString(form, "syslogTransport").value)).Ok?
    requires lookups.findLevel(TrimToNull(Some(OptString(form, "levelFilter")))).Ok?
    requires lookups.facilityFromLabel(TrimToNull(Some(OptString(form, "facility")))).Ok?
    requires NoneNamed(lookups.messageFormats, OptString(form, "messageFormat"))
    ensures ConfigureFields(s, form, lookups).error == Some(IllegalArgumentException)
    ensures ConfigureFields(s, form, lookups).settings.messageFormat == s.messageFormat
    ensures ConfigureFields(s, form, lookups).settings.hostname
      == BlankToNull(OptString(form, "syslogServerHostname"))
  {
    var name := GetString(form, "syslogTransport").value;
    var t := TransportValueOf(Some(name)).value;
    var s1 := AssignTarget(s, t, form);
    assert ConfigureFields(s, form, lookups) == ConfigureLevel(s1, form, lookups);
    BlankToNullIsTrimToNull(OptString(form, "syslogServerHostname"));
    var level := lookups.findLevel(TrimToNull(Some(OptString(form, "levelFilter")))).value;
    var s2 := s1.(levelFilter := DefaultValue(level, Some(DEFAULT_LEVEL_FILTER)),
                  appName := DefaultValue(TrimToNull(Some(OptString(form, "appName"))), Some(DEFAULT_APP_NAME)),
                  messageHostname := TrimToNull(Some(OptString(form, "messageHostname"))));
    assert ConfigureLevel(s1, form, lookups) == ConfigureFacility(s2, form, lookups);
    var facility := lookups.facilityFromLabel(TrimToNull(Some(OptString(form, "facility")))).value;
    var s3 := s2.(facility := DefaultValue(facility, Some(DEFAULT_FACILITY)));
    assert ConfigureFacility(s2, form, lookups) == ConfigureFormat(s3, form, lookups);
    assert MessageFormatValueOf(lookups.messageFormats, Some(OptString(form, "messageFormat"))).Throw?;
    assert ConfigureFormat(s3, form, lookups) == Configured(s3, Some(IllegalArgumentException));
  }

  /** A form without a "messageFormat" key reads as the empty text, which
      no enum constant is called, so `configure` throws at its last
      assignment even when everything else in the form is usable. */
  lemma ConfigureMissingFormatThrows(s: Settings, form: Form, lookups: Lookups)
    requires GetString(form, "syslogTransport").Ok?
    requires TransportValueOf(Some(GetString(form, "syslogTransport").value)).Ok?
    requires lookups.findLevel(TrimToNull(Some(OptString(form, "levelFilter")))).Ok?
    requires lookups.facilityFromLabel(TrimToNull(Some(OptString(form, "facility")))).Ok?
    requires "messageFormat" !in form.strings
    ensures ConfigureFields(s, form, lookups).error == Some(IllegalArgumentException)
    ensures ConfigureFields(s, form, lookups).settings.messageFormat == s.messageFormat
  {
    assert OptString(form, "messageFormat") == "";
    NoneNamedEmpty(lookups.messageFormats);
    ConfigureFormatThrows(s, form, lookups);
  }

  // ---------------------------------------------------------------------
  // applySettings

  /** Every handler that is not a syslog handler stays, in its relative
      order, and no other such handler appears. */
  lemma {:induction false} ApplyKeepsOtherHandlers(hs: seq<Handler>, s: Settings)
    ensures WithoutSyslog(Apply(hs, s).handlers) == WithoutSyslog(hs)
  {
    var kept := WithoutSyslog(hs);
    WithoutSyslogIdempotent(hs);
    var a := Apply(hs, s);
    if a.handlers != kept {
      var h :| a.handlers == kept + [h] && h.Syslog?;
      WithoutSyslogAppend(kept, [h]);
      assert WithoutSyslog([h]) == [];
    }
  }

  /** A syslog handler is installed exactly when the hostname is non-null
      and non-empty and the transport is non-null; never more than one. */
  lemma {:induction false} ApplyAtMostOneSyslog(hs: seq<Handler>, s: Settings)
    ensures CountSyslog(Apply(hs, s).handlers) ==
      if s.hostname.Some? && s.hostname.value != "" && s.transport.Some? then 1 else 0
  {
    var kept := WithoutSyslog(hs);
    CountSyslogWithout(hs);
    var a := Apply(hs, s);
    if a.handlers != kept {
      var h :| a.handlers == kept + [h] && h.Syslog?;
      CountSyslogAppend(kept, [h]);
    }
  }

  /** With a null or empty hostname no syslog handler is left, nothing is
      published, and the call returns normally. */
  lemma ApplyUnconfigured(hs: seq<Handler>, s: Settings)
    requires s.hostname.None? || s.hostname.value == ""
    ensures Apply(hs, s) == Applied(WithoutSyslog(hs), Normal)
    ensures CountSyslog(Apply(hs, s).handlers) == 0
  {
    CountSyslogWithout(hs);
  }

  /** The emptiness test is on the raw hostname: a non-empty hostname made
      only of blanks, as the setter can store, still installs a handler and
      returns normally. */
  lemma ApplyBlankHostnameInstalls(hs: seq<Handler>, s: Settings)
    requires s.hostname.Some? && s.hostname.value != "" && IsBlank(s.hostname.value)
    requires s.transport.Some?
    ensures CountSyslog(Apply(hs, s).handlers) == 1
    ensures Apply(hs, s).outcome == Normal
  {
    ApplyAtMostOneSyslog(hs, s);
  }

  /** The same through the plugin object: storing a blank hostname with the
      setter and then applying the settings leaves one syslog handler. */
  method BlankHostnameThroughSetter(plugin: SyslogLoggerPlugin, blank: string) returns (outcome: Outcome)
    requires blank != "" && IsBlank(blank) && plugin.syslogTransport.Some?
    modifies plugin, plugin.root
    ensures outcome == Normal && CountSyslog(plugin.root.handlers) == 1
  {
    plugin.SetSyslogServerHostname(Some(blank));
    ghost var hs := plugin.root.handlers;
    outcome := plugin.ApplySettings();
    ApplyBlankHostnameInstalls(hs, plugin.Fields());
  }

  /** With a non-empty hostname and a null transport, creating the sender
      throws, after the syslog handlers have been removed. */
  lemma ApplyNullTransport(hs: seq<Handler>, s: Settings)
    requires s.hostname.Some? && s.hostname.value != "" && s.transport.None?
    ensures Apply(hs, s) == Applied(WithoutSyslog(hs), Abrupt(NullPointerException))
  {
  }

  /** Otherwise one handler is appended at the end. It carries the
      configured hostname, port, format, level, app name, message hostname
      and facility, a sender of the transport's kind, and exactly one
      published record: the INFO confirmation naming the target and the
      transport's label. */
  lemma ApplyInstalls(hs: seq<Handler>, s: Settings)
    requires s.hostname.Some? && s.hostname.value != "" && s.transport.Some?
    ensures var a := Apply(hs, s);
      && a.outcome == Normal
      && |a.handlers| == |WithoutSyslog(hs)| + 1
      && a.handlers[..|a.handlers| - 1] == WithoutSyslog(hs)
      && var last := a.handlers[|a.handlers| - 1];
      && last.Syslog?
      && last.handler.sender.kind == Create(s.transport.value)
      && last.handler.sender.serverHostname == s.hostname
      && last.handler.sender.serverPort == s.port
      && last.handler.sender.messageFormat == s.messageFormat
      && last.handler.levelFilter == s.levelFilter
      && last.handler.appName == s.appName
      && last.handler.messageHostname == s.messageHostname
      && last.handler.facility == s.facility
      && |last.handler.published| == 1
      && last.handler.published[0].level == INFO
      && last.handler.published[0].loggerName == Some(LOGGER_NAME)
      && last.handler.published[0].message ==
        "Jenkins configured to output log messages to syslog server " + s.hostname.value
        + ":" + IntToString(s.port) + " on transport " + Label(s.transport.value)
  {
    var a := Apply(hs, s);
    assert a.handlers[..|a.handlers| - 1] == WithoutSyslog(hs);
  }

  /** The port in the confirmation text reads back as the configured port. */
  lemma ConfirmationNamesPort(host: string, port: Int32, t: SyslogTransport)
    ensures exists portText :: (ParseInt(portText) == Some(port as int) &&
      ConfirmationMessage(host, port, t) ==
        "Jenkins configured to output log messages to syslog server " + host
        + ":" + portText + " on transport " + Label(t))
  {
    IntToStringRoundTrip(port);
    var portText := IntToString(port);
    assert ParseInt(portText) == Some(port as int);
  }

  /** Applying the same settings twice leaves the same list as applying
      them once: handlers never accumulate. */
  lemma {:induction false} ApplyIdempotent(hs: seq<Handler>, s: Settings)
    ensures Apply(Apply(hs, s).handlers, s) == Apply(hs, s)
  {
    ApplyKeepsOtherHandlers(hs, s);
  }

  // ---------------------------------------------------------------------
  // configure followed by applySettings

  /** After a completed `configure` the transport is non-null, so applying
      the settings never throws; a blank hostname in the form leaves no
      syslog handler at all. */
  lemma ConfigureThenApply(hs: seq<Handler>, s: Settings, form: Form, lookups: Lookups)
    requires ConfigureFields(s, form, lookups).error.None?
    ensures Apply(hs, ConfigureFields(s, form, lookups).settings).outcome == Normal
    ensures IsBlank(OptString(form, "syslogServerHostname")) ==>
      CountSyslog(Apply(hs, ConfigureFields(s, form, lookups).settings).handlers) == 0
    ensures !IsBlank(OptString(form, "syslogServerHostname")) ==>
      CountSyslog(Apply(hs, ConfigureFields(s, form, lookups).settings).handlers) == 1
  {
    var c := ConfigureFields(s, form, lookups).settings;
    ConfigureCompleted(s, form, lookups);
    ApplyAtMostOneSyslog(hs, c);
  }
}
