/** The java.util.logging values the plugin uses: levels and records. */
module Jul {
  import opened JavaLang

  /** A `java.util.logging.Level`: its name and its numeric value. */
  datatype Level = Level(name: string, value: Int32)

  const FINE := Level("FINE", 500)
  const INFO := Level("INFO", 800)

  /** A `LogRecord` as far as the plugin fills it in. */
  datatype LogRecord = LogRecord(level: Level, message: string, loggerName: Option<string>)
}
