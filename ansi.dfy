/** The ANSI escape sequences the formatter writes around its text. */
module Ansi {
  const Reset := "\U{1B}[0m"
  const Bold := "\U{1B}[1m"
  const Gray := "\U{1B}[90m"
  const Red := "\U{1B}[91m"
  const Green := "\U{1B}[92m"
  const Yellow := "\U{1B}[93m"
  const Blue := "\U{1B}[94m"
  const Cyan := "\U{1B}[96m"
  const BoldRed := "\U{1B}[1;91m"
  const BoldBlue := "\U{1B}[1;94m"
  const BoldMagenta := "\U{1B}[1;95m"
  const BoldCyan := "\U{1B}[1;96m"
}
