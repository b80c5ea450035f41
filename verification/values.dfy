/** Values the payload builders carry but never compute with. */
module Values {

  /** A 64-bit IEEE-754 floating-point number, kept as its bit pattern:
      the builders only pass such numbers along, so no arithmetic is modelled. */
  datatype Float64 = Float64(bits: bv64)

  /** A colour of the spreadsheet service: red, green and blue channels, each
      a float between 0 and 1 that the builders copy but never inspect. */
  datatype Color = Color(red: Float64, green: Float64, blue: Float64)
}
