# Syslog logger plugin for Jenkins: settings and handler installation

This project models the part of the Jenkins syslog logger plugin that the
plugin itself owns: how the global configuration form becomes eight
settings fields, how a transport constant chooses a message sender, and how
`applySettings` rewrites the root logger's handler list. It then proves
what those pieces promise.

- `java_lang.dfy` (`JavaLang`): null as `Option`, the exceptions the code
  raises or lets through, Java's 32-bit `int`, and two operations that each
  come with a reference definition and a lemma connecting the two:
  `String.trim` (which removes the leading and trailing characters up to
  U+0020) and `Integer.toString`.
- `jul.dfy` (`Jul`): `Level` (name and value; FINE is 500, INFO is 800) and
  `LogRecord`.
- `syslog_client.dfy` (`SyslogClient`): records of the syslog client
  library's objects. A sender is its kind (UDP or TCP with an SSL flag) plus
  hostname, port and message format. A `SyslogHandler` is its sender and
  settings plus the records published through it.
- `root_logger.dfy` (`RootLogging`): the root logger as a class whose
  `handlers` sequence is changed by `AddHandler` and `RemoveHandler`. It also
  has the filter `WithoutSyslog` and the lemmas about it.
- `syslog_logger.dfy` (`SyslogLogger`): `trimToNull`, `defaultValue`, the
  `SyslogTransport` enum, the form and the foreign lookups, and the plugin
  class `SyslogLoggerPlugin`. The class has the eight fields, `Configure`,
  `ApplySettings`, the getters and the setters. `ConfigureFields` (in
  stages: `AssignTarget`, `ConfigureLevel`, `ConfigureFacility`,
  `ConfigureFormat`) and `Apply` are the functions those methods are proved
  against.
- `syslog_logger_properties.dfy` (`SyslogLoggerProperties`): the properties
  of `configure` and `applySettings`.

The form is modelled as the values `optString`, `optInt` and `getString`
read from it. An absent key reads as `""` or `0`; for `getString` it throws
`JSONException`. The library lookups `LevelHelper.findLevel` and `Facility.fromLabel` are
function-valued fields of a `Lookups` parameter; each may return a value,
return null or throw. `Level.parse`, also a field, returns a level or
throws. `MessageFormat` is an enum, so its `valueOf` is modelled as the enum
lookup over the list of constants that `values()` gives (also a field of
`Lookups`): it never returns null, a null name throws
`NullPointerException`, and a name that is no constant's, the empty text
included, throws `IllegalArgumentException`. `SyslogTransport.valueOf` is
the plugin's own enum, so it is modelled exactly in the same way.

Behaviour of the code that the model keeps, and that is easy to misread:

- `configure` assigns the fields in order. A lookup that throws leaves the
  earlier fields assigned and the later ones untouched, and skips saving and
  applying.
- `SyslogTransport.valueOf` never returns null, so the UDP fallback in
  `configure` is never taken. The boxed port is never null, so the 514
  fallback is never taken either. `MessageFormat.valueOf` never returns
  null, so the RFC_3164 fallback at line 124 is never taken either.
- The message-format text is read with `optString` and not trimmed. A form
  without a "messageFormat" key reads as `""`, which names no constant, so
  `configure` throws `IllegalArgumentException` after its first seven
  assignments, even when the rest of the form is usable.
- `applySettings` never calls `setSsl` on a plain TCP sender, so such a
  sender keeps the library's default SSL flag. The model takes that default
  to be off.
- No port range or hostname validation happens anywhere. A hostname of
  spaces stored through the setter passes the empty-string test and is
  installed.
- With a non-empty hostname and a null transport (possible through
  `setSyslogTransport(null)`), `applySettings` throws `NullPointerException`
  after it has already removed the old syslog handlers.
- The old handler is removed before the new one is added. There is no atomic
  swap.

## Model

| member | source | states |
|---|---|---|
| `SyslogLogger.TrimToNull` | src/main/java/org/jenkinsci/plugins/sysloglogger/SyslogLoggerPlugin.java:310-317 | null exactly when the value is null or every character is one `trim` removes; otherwise the value itself, untrimmed |
| `JavaLang.TrimEmptyIff` | src/main/java/org/jenkinsci/plugins/sysloglogger/SyslogLoggerPlugin.java:312 | `value.trim().isEmpty()` holds exactly when every character of the value is at most U+0020 |
| `JavaLang.Trim` | src/main/java/org/jenkinsci/plugins/sysloglogger/SyslogLoggerPlugin.java:312 | the trimmed string is no longer than the input and neither of its ends is a trimmable character |
| `JavaLang.TrimIsMiddle` | src/main/java/org/jenkinsci/plugins/sysloglogger/SyslogLoggerPlugin.java:312 | the trimmed string is a contiguous part of the input, and every character before it and after it is trimmable |
| `JavaLang.TrimOfPadded` | src/main/java/org/jenkinsci/plugins/sysloglogger/SyslogLoggerPlugin.java:312 | a middle part with no trimmable character at either end, between a blank prefix and a blank suffix, is exactly what `trim` returns; with the two lemmas above this pins `trim` down |
| `SyslogLoggerProperties.TrimToNullKeepsSpaces` | src/main/java/org/jenkinsci/plugins/sysloglogger/SyslogLoggerPlugin.java:315 | a non-blank value with surrounding spaces comes back with its spaces |
| `SyslogLoggerProperties.TrimToNullIdempotent` | src/main/java/org/jenkinsci/plugins/sysloglogger/SyslogLoggerPlugin.java:311-317 | applying `trimToNull` twice is the same as once |
| `SyslogLogger.DefaultValue` | src/main/java/org/jenkinsci/plugins/sysloglogger/SyslogLoggerPlugin.java:319-327 | the default exactly when the value is null, the value otherwise; never null when the default is not |
| `SyslogLoggerProperties.DefaultValueIdempotent` | src/main/java/org/jenkinsci/plugins/sysloglogger/SyslogLoggerPlugin.java:320-327 | `defaultValue(defaultValue(v, d), d) == defaultValue(v, d)` |
| `SyslogLogger.Create` | src/main/java/org/jenkinsci/plugins/sysloglogger/SyslogLoggerPlugin.java:68-86 | only UDP creates a UDP sender; a TCP sender has SSL on exactly for TCP_SSL |
| `SyslogLogger.Label` | src/main/java/org/jenkinsci/plugins/sysloglogger/SyslogLoggerPlugin.java:69-96 | the label is the constant's name except for TCP_SSL, whose label differs from its name |
| `SyslogLoggerProperties.TransportTable` | src/main/java/org/jenkinsci/plugins/sysloglogger/SyslogLoggerPlugin.java:68-99 | UDP gives a UDP sender and label "UDP"; TCP a TCP sender without SSL, "TCP"; TCP_SSL a TCP sender with SSL, "TCP + SSL" |
| `SyslogLoggerProperties.CreateIsSupported` | src/main/java/org/jenkinsci/plugins/sysloglogger/SyslogLoggerPlugin.java:149-162 | every transport creates a UDP or TCP sender, so the "Unsupported SyslogMessageSender" branch is unreachable; SSL is on exactly for TCP_SSL |
| `SyslogLoggerProperties.TransportDistinct` | src/main/java/org/jenkinsci/plugins/sysloglogger/SyslogLoggerPlugin.java:68-96 | distinct transports have distinct senders, labels and names |
| `SyslogLogger.TransportValueOf` | src/main/java/org/jenkinsci/plugins/sysloglogger/SyslogLoggerPlugin.java:117 | null throws NullPointerException, a name that is no constant's throws IllegalArgumentException, a success is the constant of that name |
| `SyslogLoggerProperties.TransportNameRoundTrip` | src/main/java/org/jenkinsci/plugins/sysloglogger/SyslogLoggerPlugin.java:287-289 | `valueOf(name())` gives the constant back |
| `SyslogLogger.ConfigureFields` | src/main/java/org/jenkinsci/plugins/sysloglogger/SyslogLoggerPlugin.java:117-124 | when no assignment throws, the transport, level filter, app name, facility and format are all non-null |
| `SyslogLogger.AssignTarget` | src/main/java/org/jenkinsci/plugins/sysloglogger/SyslogLoggerPlugin.java:117-119 | the transport becomes the given constant, and only the transport, hostname and port fields change |
| `SyslogLogger.ConfigureLevel` | src/main/java/org/jenkinsci/plugins/sysloglogger/SyslogLoggerPlugin.java:120-122 | the transport, hostname and port are left as they were; when nothing later throws, the level filter, app name, facility and format are non-null |
| `SyslogLogger.ConfigureFacility` | src/main/java/org/jenkinsci/plugins/sysloglogger/SyslogLoggerPlugin.java:123 | only the facility and the format can change; when nothing throws, both are non-null |
| `SyslogLogger.ConfigureFormat` | src/main/java/org/jenkinsci/plugins/sysloglogger/SyslogLoggerPlugin.java:124 | only the format can change; when the lookup throws it is IllegalArgumentException and no field changes; otherwise the format is non-null |
| `SyslogClient.MessageFormatValueOf` | src/main/java/org/jenkinsci/plugins/sysloglogger/SyslogLoggerPlugin.java:124 | null throws NullPointerException; a found constant is one of `values()` and has exactly the given name; the lookup throws IllegalArgumentException exactly when no constant has that name |
| `SyslogLogger.SyslogLoggerPlugin.Configure` | src/main/java/org/jenkinsci/plugins/sysloglogger/SyslogLoggerPlugin.java:115-129 | the fields become those of `ConfigureFields`; after an exception the handler list is unchanged and the exception is the result; otherwise the list is that of `Apply` on the new fields and the result is true or the exception `applySettings` threw |
| `SyslogLogger.SyslogLoggerPlugin.AssignFields` | src/main/java/org/jenkinsci/plugins/sysloglogger/SyslogLoggerPlugin.java:117-124 | the eight assignments leave the fields as `ConfigureFields` says, and report the exception that stopped them |
| `SyslogLogger.SyslogLoggerPlugin.AssignLevel` | src/main/java/org/jenkinsci/plugins/sysloglogger/SyslogLoggerPlugin.java:120-124 | the level lookup and the level, app name and message hostname assignments, then the facility and format stages, as `ConfigureLevel` says |
| `SyslogLogger.SyslogLoggerPlugin.AssignFacility` | src/main/java/org/jenkinsci/plugins/sysloglogger/SyslogLoggerPlugin.java:123-124 | the facility lookup and assignment, then the format stage, as `ConfigureFacility` says |
| `SyslogLogger.SyslogLoggerPlugin.AssignFormat` | src/main/java/org/jenkinsci/plugins/sysloglogger/SyslogLoggerPlugin.java:124 | the message-format lookup and assignment, as `ConfigureFormat` says |
| `SyslogLoggerProperties.ConfigureBadTransport` | src/main/java/org/jenkinsci/plugins/sysloglogger/SyslogLoggerPlugin.java:117 | a missing "syslogTransport" key throws JSONException and an unknown name throws IllegalArgumentException; no field changes |
| `SyslogLoggerProperties.ConfigureCompleted` | src/main/java/org/jenkinsci/plugins/sysloglogger/SyslogLoggerPlugin.java:116-124 | after a completed `configure` the fields hold: the named transport; the hostname, or null when blank; the form's port; the level, or FINE for null; the app name, or "jenkins" when blank; the message hostname, or null when blank; the facility, or USER for null; the format constant whose name is the form's untrimmed text |
| `SyslogLoggerProperties.ConfigurePortNeverDefaulted` | src/main/java/org/jenkinsci/plugins/sysloglogger/SyslogLoggerPlugin.java:119 | with no port in the form the stored port is 0, not the 514 default |
| `SyslogLoggerProperties.ConfigureReplacesAll` | src/main/java/org/jenkinsci/plugins/sysloglogger/SyslogLoggerPlugin.java:116-124 | a completed `configure` gives the same fields whatever they were before |
| `SyslogLoggerProperties.ConfigureFormatStoresNamed` | src/main/java/org/jenkinsci/plugins/sysloglogger/SyslogLoggerPlugin.java:124 | the stored format is a constant of `values()` whose name is the form's text, never the RFC_3164 fallback |
| `SyslogLoggerProperties.ConfigureFormatThrows` | src/main/java/org/jenkinsci/plugins/sysloglogger/SyslogLoggerPlugin.java:118-124 | when the earlier lookups succeed and no constant is named by the form's format text, IllegalArgumentException is reported, the format keeps its old value and the hostname was already replaced |
| `SyslogLoggerProperties.ConfigureMissingFormatThrows` | src/main/java/org/jenkinsci/plugins/sysloglogger/SyslogLoggerPlugin.java:124 | a form without a "messageFormat" key makes `configure` throw IllegalArgumentException even when everything else in it is usable; the format keeps its old value |
| `SyslogLoggerProperties.ConfigureThenApply` | src/main/java/org/jenkinsci/plugins/sysloglogger/SyslogLoggerPlugin.java:116-127 | after a completed `configure`, `applySettings` cannot throw; it leaves no syslog handler when the form's hostname is blank and exactly one otherwise |
| `SyslogLogger.SyslogLoggerPlugin.ApplySettings` | src/main/java/org/jenkinsci/plugins/sysloglogger/SyslogLoggerPlugin.java:132-179 | the new handler list and the outcome are those of `Apply` on the old list and the current fields |
| `SyslogLogger.RemoveSyslogHandlers` | src/main/java/org/jenkinsci/plugins/sysloglogger/SyslogLoggerPlugin.java:134-142 | the loop over the snapshot leaves exactly `WithoutSyslog` of the old list |
| `RootLogging.WithoutSyslog` | src/main/java/org/jenkinsci/plugins/sysloglogger/SyslogLoggerPlugin.java:137-142 | what is left has no syslog handler and is no longer than the input |
| `RootLogging.WithoutSyslogMembers` | src/main/java/org/jenkinsci/plugins/sysloglogger/SyslogLoggerPlugin.java:137-142 | a handler is left exactly when it was there and is not a syslog handler |
| `RootLogging.WithoutSyslogAppend` | src/main/java/org/jenkinsci/plugins/sysloglogger/SyslogLoggerPlugin.java:137-142 | removal distributes over concatenation, so the kept handlers stay in their relative order |
| `RootLogging.RemoveStep` | src/main/java/org/jenkinsci/plugins/sysloglogger/SyslogLoggerPlugin.java:138-141 | one pass of the loop moves the boundary between the filtered prefix and the untouched rest by one handler |
| `RootLogging.RemoveFirst` | src/main/java/org/jenkinsci/plugins/sysloglogger/SyslogLoggerPlugin.java:140 | a handler not in the list leaves it unchanged; one that is in it shortens the list by exactly one |
| `RootLogging.RemoveFirstAfter` | src/main/java/org/jenkinsci/plugins/sysloglogger/SyslogLoggerPlugin.java:140 | `removeHandler` drops the first occurrence of the handler and nothing else |
| `RootLogging.RootLogger.RemoveHandler` | src/main/java/org/jenkinsci/plugins/sysloglogger/SyslogLoggerPlugin.java:140 | the list loses the first occurrence of the handler |
| `RootLogging.RootLogger.AddHandler` | src/main/java/org/jenkinsci/plugins/sysloglogger/SyslogLoggerPlugin.java:178 | the handler is appended at the end of the list |
| `SyslogLoggerProperties.ApplyKeepsOtherHandlers` | src/main/java/org/jenkinsci/plugins/sysloglogger/SyslogLoggerPlugin.java:137-142 | the non-syslog handlers after the call are exactly those before it, in the same order |
| `SyslogLoggerProperties.ApplyAtMostOneSyslog` | src/main/java/org/jenkinsci/plugins/sysloglogger/SyslogLoggerPlugin.java:137-178 | exactly one syslog handler is left when the hostname is neither null nor empty and the transport is not null; otherwise none |
| `SyslogLoggerProperties.ApplyUnconfigured` | src/main/java/org/jenkinsci/plugins/sysloglogger/SyslogLoggerPlugin.java:144-147 | a null or empty hostname leaves the list without syslog handlers, publishes nothing and returns normally |
| `SyslogLoggerProperties.ApplyBlankHostnameInstalls` | src/main/java/org/jenkinsci/plugins/sysloglogger/SyslogLoggerPlugin.java:144-178 | any non-empty hostname made only of trimmable characters, with a transport, passes the emptiness test: the call returns normally and leaves exactly one syslog handler |
| `SyslogLoggerProperties.BlankHostnameThroughSetter` | src/main/java/org/jenkinsci/plugins/sysloglogger/SyslogLoggerPlugin.java:263-265 | storing such a hostname with the setter and then applying the settings returns normally and leaves exactly one syslog handler |
| `SyslogLoggerProperties.ApplyNullTransport` | src/main/java/org/jenkinsci/plugins/sysloglogger/SyslogLoggerPlugin.java:149 | a non-empty hostname with a null transport throws NullPointerException after the syslog handlers are removed |
| `SyslogLoggerProperties.ApplyInstalls` | src/main/java/org/jenkinsci/plugins/sysloglogger/SyslogLoggerPlugin.java:149-178 | one handler is appended at the end, with the transport's sender kind and the configured hostname, port, format, level filter, app name, message hostname and facility; it has exactly one published record, at INFO and from the plugin's logger, with the confirmation text |
| `SyslogLogger.ConfirmationMessage` | src/main/java/org/jenkinsci/plugins/sysloglogger/SyslogLoggerPlugin.java:171 | the text starts with the fixed prefix, then the hostname, and ends with the transport's label |
| `SyslogLogger.Apply` | src/main/java/org/jenkinsci/plugins/sysloglogger/SyslogLoggerPlugin.java:132-179 | the call throws NullPointerException exactly when the hostname is non-empty and the transport is null, and otherwise returns normally; the list grows by at most one handler |
| `SyslogLoggerProperties.ConfirmationNamesPort` | src/main/java/org/jenkinsci/plugins/sysloglogger/SyslogLoggerPlugin.java:171 | the port's text in the confirmation reads back as the configured port |
| `JavaLang.IntToStringRoundTrip` | src/main/java/org/jenkinsci/plugins/sysloglogger/SyslogLoggerPlugin.java:171 | the decimal text concatenated for the port reads back as the port |
| `JavaLang.IntToString` | src/main/java/org/jenkinsci/plugins/sysloglogger/SyslogLoggerPlugin.java:171 | the text is non-empty and starts with '-' exactly for a negative; `IntToStringRoundTrip` reads it back |
| `JavaLang.NatToString` | src/main/java/org/jenkinsci/plugins/sysloglogger/SyslogLoggerPlugin.java:171 | the text is nonempty, all digits, and has no leading zero |
| `SyslogLoggerProperties.ApplyIdempotent` | src/main/java/org/jenkinsci/plugins/sysloglogger/SyslogLoggerPlugin.java:132-179 | applying the same settings twice gives the same list as applying them once, so handlers never accumulate |
| `SyslogClient.SyslogHandler.Publish` | src/main/java/org/jenkinsci/plugins/sysloglogger/SyslogLoggerPlugin.java:174 | the record is appended to the handler's published records and nothing else changes |
| `SyslogLogger.SyslogLoggerPlugin.constructor` | src/main/java/org/jenkinsci/plugins/sysloglogger/SyslogLoggerPlugin.java:101-111 | the fields start at their initialisers (UDP, null, 514, FINE, "jenkins", null, USER, RFC_3164), or at the loaded settings when there are any |
| `SyslogLogger.SyslogLoggerPlugin.New` | src/main/java/org/jenkinsci/plugins/sysloglogger/SyslogLoggerPlugin.java:110-113 | the new plugin has loaded its fields and applied them to the root logger; the outcome is an exception that would escape the constructor |
| `SyslogLogger.SyslogLoggerPlugin.GetLevelFilter` | src/main/java/org/jenkinsci/plugins/sysloglogger/SyslogLoggerPlugin.java:239-241 | null exactly for a null level, otherwise the level's name |
| `SyslogLogger.SyslogLoggerPlugin.GetFacility` | src/main/java/org/jenkinsci/plugins/sysloglogger/SyslogLoggerPlugin.java:251-253 | null exactly for a null facility, otherwise its label |
| `SyslogLogger.SyslogLoggerPlugin.GetMessageFormat` | src/main/java/org/jenkinsci/plugins/sysloglogger/SyslogLoggerPlugin.java:255-257 | null exactly for a null format, otherwise its name |
| `SyslogLogger.SyslogLoggerPlugin.GetSyslogTransport` | src/main/java/org/jenkinsci/plugins/sysloglogger/SyslogLoggerPlugin.java:259-261 | null exactly for a null transport; otherwise a name that `valueOf` maps back to the transport |
| `SyslogLogger.SyslogLoggerPlugin.SetSyslogServerHostname` | src/main/java/org/jenkinsci/plugins/sysloglogger/SyslogLoggerPlugin.java:263-265 | the getter returns the stored value, untrimmed, and no other field changes |
| `SyslogLogger.SyslogLoggerPlugin.SetSyslogServerPort` | src/main/java/org/jenkinsci/plugins/sysloglogger/SyslogLoggerPlugin.java:267-269 | the getter returns the stored port and no other field changes |
| `SyslogLogger.SyslogLoggerPlugin.SetLevelFilter` | src/main/java/org/jenkinsci/plugins/sysloglogger/SyslogLoggerPlugin.java:271-273 | null clears the level; otherwise `Level.parse` gives the level, or its exception leaves every field as it was |
| `SyslogLogger.SyslogLoggerPlugin.SetMessageHostname` | src/main/java/org/jenkinsci/plugins/sysloglogger/SyslogLoggerPlugin.java:275-277 | the getter returns the stored value and no other field changes |
| `SyslogLogger.SyslogLoggerPlugin.SetAppName` | src/main/java/org/jenkinsci/plugins/sysloglogger/SyslogLoggerPlugin.java:279-281 | the getter returns the stored value and no other field changes |
| `SyslogLogger.SyslogLoggerPlugin.SetFacility` | src/main/java/org/jenkinsci/plugins/sysloglogger/SyslogLoggerPlugin.java:283-285 | null clears the facility; otherwise `Facility.fromLabel` gives it, or its exception leaves every field as it was |
| `SyslogLogger.SyslogLoggerPlugin.SetSyslogTransport` | src/main/java/org/jenkinsci/plugins/sysloglogger/SyslogLoggerPlugin.java:287-289 | null clears the transport; a name that is no constant's throws IllegalArgumentException and changes nothing; giving back what the getter returned changes nothing |
| `SyslogLogger.SyslogLoggerPlugin.SetMessageFormat` | src/main/java/org/jenkinsci/plugins/sysloglogger/SyslogLoggerPlugin.java:291-293 | null clears the format; otherwise `MessageFormat.valueOf` gives it, or its exception leaves every field as it was |

The getters `GetSyslogServerHostname`, `GetSyslogServerPort`, `GetAppName`
and `GetMessageHostname` (lines 231-249) return their field. They have no
contract of their own; the setters' contracts state them. In the same way
`Name` (the enum's `name()`) is stated by `TransportValueOf`,
`TransportNameRoundTrip` and `TransportDistinct`, and `InstalledHandler`
(lines 149-174) and `ConfirmationRecord` (the record built at lines
172-173) by `ApplyInstalls`.

## Left out

- The syslog client library (com.cloudbees.syslog) is not part of this model. It covers RFC 3164 / RFC 5424 rendering, PRI computation, framing and UDP/TCP/TLS I/O. Senders and handlers are records of their settings. The library calls that `applySettings` makes at lines 149-174 (the sender and handler constructors, their setters and `publish`) are taken never to throw, so the normal outcomes stated by `Apply`, `ApplyInstalls`, `ApplyBlankHostnameInstalls`, `BlankHostnameThroughSetter` and `ConfigureThenApply` rest on that.
- `SyslogClient.SyslogHandler.Publish`: does not model the library's own level filtering when it publishes a record. Every record handed to the handler is recorded.
- The `SimpleFormatter` set on the handler and the null filter passed to its constructor are constant, so the handler record does not carry them.
- The library defaults of a freshly created sender and handler are not modelled: `applySettings` sets hostname, port and format on the sender and app name, message hostname and facility on the handler. Of the settings the model records, the one default it does not override is the SSL flag of a plain TCP sender, which the model takes to be off.
- The label "USER" of facility USER follows the library's table, which is not part of this model. Only the default facility's code, 1, is fixed by the syslog standard (section 6.2.1 of RFC 5424).
- `LevelHelper.findLevel`, `Level.parse` and `Facility.fromLabel` read tables that are not part of this model. They are parameters: the first and the last may return a value, return null or throw; `Level.parse` returns a level or throws. The constants of `MessageFormat` are a parameter too; its `valueOf` is the enum lookup over them.
- `load()` and `save()` persistence: the loaded settings are a constructor parameter, and saving has no effect in the model.
- Parsing of the `StaplerRequest` / `JSONObject` form: only the values `optString`, `optInt` and `getString` return are modelled.
- The `doFill*Items` list builders (lines 181-225), `getDisplayName` and `toString` are UI and debugging output and not modelled.
- The `LOGGER.fine` / `LOGGER.info` calls only log locally and are left out.
- Concurrency: the remove-then-add on the shared root logger is not atomic in the code. The model runs each call alone and proves nothing about concurrent publishing.
- Handler identity is modelled as value equality of handler records. Two equal syslog handlers in the list are both removed, as with Java's identity-based removal of one object listed twice.
