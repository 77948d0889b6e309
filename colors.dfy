/** The colours the history screens pick by rule. */
module Colors {
  datatype Color = Green | Orange | Yellow | Red | Blue | Purple | Cyan
}
