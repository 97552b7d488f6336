/** Drawing colours: opaque CSS colour strings compared only for equality. */
module Colors {
  datatype Color = Color(value: string)

  const White := Color("#FFF")
  const Red := Color("#F00")
  const Black := Color("#000")
  const Gray := Color("#888")
  const Green := Color("#0F0")
  const Blue := Color("#00F")
}
