/** The plugin settings the conversion reads, passed in as a value instead of
    being loaded from the editor's settings file. */
module Settings {

  /** `uppercase`, `three_hex`, `rgb` and `opacity` as the settings file gives them. */
  datatype Config = Config(uppercase: bool, threeHex: bool, rgb: bool, opacity: real)

  /** `check_opacity`: the configured opacity when it lies in [0,1], else 1. */
  function CheckOpacity(configured: real): (o: real)
    ensures 0.0 <= o <= 1.0
    ensures 0.0 <= configured <= 1.0 ==> o == configured
    ensures !(0.0 <= configured <= 1.0) ==> o == 1.0
  {
    if configured <= 1.0 && configured >= 0.0 then configured else 1.0
  }

  /** Sanitising an opacity twice changes nothing more. */
  lemma CheckOpacityIdempotent(configured: real)
    ensures CheckOpacity(CheckOpacity(configured)) == CheckOpacity(configured)
  {
  }
}
