/** An optional value: a lookup that found nothing, a parse that gave NaN. */
module Maybe {
  datatype Option<+T> = None | Some(value: T)
}
