/** A value that may be missing: a browser-storage read that found nothing,
    or a frame clock that has not been started yet. */
module Options {

  datatype Option<T> = None | Some(value: T)
}
