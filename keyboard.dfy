/** The keys the customer pickers react to. */
module Keyboard {
  datatype Key = Enter | Escape | ArrowDown | ArrowUp | OtherKey
}
