/** The configuration records of `mdbom/config/types.py`. */
module ConfigTypes {

  /** What is read: the BOM file, its ecosystem, the report template. */
  datatype Input = Input(bomFile: string, bomType: string, templateFile: string)

  /** What is written: the Markdown report. */
  datatype Output = Output(markdownFile: string)

  /** The whole configuration. */
  datatype Config = Config(source: Input, target: Output)

  /** A `ConfigError` with its message. */
  datatype ConfigError = ConfigError(message: string)
}
