/** The integer widths of the wire format, and what the modules share. */
module NativeTypes {
  const TWO_TO_THE_31 := 0x8000_0000
  const TWO_TO_THE_32 := 0x1_0000_0000

  type int32 = x: int | -TWO_TO_THE_31 <= x < TWO_TO_THE_31
  type uint32 = x: int | 0 <= x < TWO_TO_THE_32

  datatype Option<+T> = None | Some(value: T)

  function Min(a: int, b: int): int {
    if a < b then a else b
  }

  function Max(a: int, b: int): int {
    if a < b then b else a
  }

  /** Texts one after the other, a separator between any two. */
  function Join(parts: seq<string>, separator: char): string {
    if parts == [] then ""
    else if |parts| == 1 then parts[0]
    else parts[0] + [separator] + Join(parts[1..], separator)
  }
}
