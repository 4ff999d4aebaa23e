/** Optional values: the logger's `T | undefined` fields and inputs. */
module Options {

  datatype Option<+T> = None | Some(value: T)
}
