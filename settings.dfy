/** The shortener's run configuration (shorten/shortener.go, `Config` and `NewDefaultConfig`). */
module Settings {

  datatype Config = Config(
    maxLen: int,            // target width of every line
    tabLen: int,            // width of one tab character
    keepAnnotations: bool,  // leave the markers in the result (debugging)
    shortenComments: bool,  // reflow long comment runs at the end
    reformatTags: bool,     // align struct tags while walking the tree
    chainSplitDots: bool    // break method chains after each call
  )

  /** NewDefaultConfig; the debug graph path (DotFile) is not part of this model. */
  const DefaultConfig := Config(100, 4, false, false, true, true)

  /** The number of rewriting rounds allowed after the first one. */
  const MaxRounds: nat := 20
}
