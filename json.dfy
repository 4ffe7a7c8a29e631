/** Optional values, used for JavaScript's null and for a JSON body that fails to parse. */
module Wrappers {

  datatype Option<+T> = None | Some(value: T)
}

/** The JSON documents exchanged between the control panel and the device. */
module Json {

  /** An unsigned 8-bit integer (C's uint8_t, a colour channel or a brightness level). */
  type Byte = x: int | 0 <= x < 256

  /**
   * A JSON value as the three components see it after parsing. Numbers are
   * limited to 0..255: every number the control panel sends lies there.
   */
  datatype Value = Num(n: Byte) | Bool(b: bool) | Text(s: string) | Null

  /** A parsed JSON object: its keys and their values. */
  type Document = map<string, Value>
}
