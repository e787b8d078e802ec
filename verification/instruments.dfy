/** The instrument names the page knows; any other name selects nothing. */
module Instruments {

  const Piano: string := "piano"
  const Synthesizer: string := "synthesizer"
}
