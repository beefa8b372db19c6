/** The parser's output records (keymapc/keymapc.go). */
module Keys {

  /** One key: the top-left border intersection, the span to the bottom-right one, and the label (Go's `Label`). */
  datatype Key = Key(x: int, y: int, dx: int, dy: int, labelText: string)

  /** One titled layer; keys in detection order. */
  datatype Keymap = Keymap(title: string, keys: seq<Key>)
}
