/** The optional value used wherever the renderer may find nothing: a missing
    semantic element, an undefined marker, an event without a glyph. */
module Wrappers {

  datatype Option<+T> = None | Some(value: T)
}
