/** Optional values: the model's counterpart of a TypeScript `T | undefined`
    (or `T | null`) value. */
module Options {
  datatype Option<+T> = None | Some(value: T)
}
