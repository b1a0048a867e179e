/** Identities and enumerations shared by the toolkit's controls and layouts. */
module Views {

  /** Identity of a view: a scroll view, a child view placed in a layout, or a button. */
  type ViewId = nat

  /** A reference that may be null. */
  datatype Option<T> = None | Some(value: T)

  /**
   * The display orientation reported by the platform. The platform enumeration has the three
   * named members; `Other` stands for any other value the enumeration can hold, which the
   * `switch` statements of the layouts treat through their `default` branch or not at all.
   */
  datatype DisplayOrientation = Unknown | Portrait | Landscape | Other(code: int)
}
