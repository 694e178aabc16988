/** .NET strings: sequences of UTF-16 code units, which `Length` and `Substring` count. */
module Utf16 {

  /** One UTF-16 code unit; a character outside the Basic Multilingual Plane takes two. */
  newtype CodeUnit = x: int | 0 <= x < 0x1_0000

  /** The text of a .NET string, one element per code unit. */
  type Utf16Text = seq<CodeUnit>
}
