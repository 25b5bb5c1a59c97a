/** Results that may be undefined. */
module Options {

  /** `Some(value)` for a defined result; `None` for a masked pixel, a pixel
      outside the region, or an accuracy over no samples. */
  datatype Option<T> = None | Some(value: T)
}
