/** The normalised options record. How it is produced from the user's input is not modelled. */
module Config {
  import opened JsValues

  /** The five accepted values of `position`; `Plugin` is 'plugin', the others 'head-top' and so on. */
  datatype Position = Plugin | HeadTop | HeadBottom | BodyTop | BodyBottom

  /** The minifier settings, forwarded verbatim to the minifier. */
  datatype MinifyConfig = MinifyConfig(settings: map<string, string>)

  /** The minifier a compilation uses: none, or one built from the settings. */
  datatype Minifier = NoMinifier | CleanCss(config: MinifyConfig)

  /**
   * The normalised plugin options. `cssRegExp` is the regular expression as the
   * predicate its `test` method computes; `minify` is `None` when minification is off.
   */
  datatype Options = Options(
    enabled: bool,
    cssFilename: Option<string>,
    cssRegExp: Option<string -> bool>,
    chunks: Option<seq<string>>,
    position: Position,
    minify: Option<MinifyConfig>)
}
