/** Nullable values of the Kotlin source (`String?`, a nullable stored user). */
module Optional {
  datatype Option<T> = None | Some(value: T)
}
