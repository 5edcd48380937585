/** Opaque handles for the host-library objects the descriptors pass around. */
module Handles {

  /** A .NET object reference that may be null. Components, property values,
      System.Type objects, type converters and editors are all compared by
      identity only, so a reference is just a number. */
  datatype Ref = Null | Obj(id: nat)

  /** A System.Type used as an editor kind (the `editorBaseType` of GetEditor).
      Editor kinds are always given as `typeof(...)`, so they are never null. */
  datatype TypeKey = TypeKey(id: nat)

  datatype Option<+T> = None | Some(value: T)

  datatype Result<+T, +E> = Success(value: T) | Failure(error: E)

  /** The one error the decorator raises: a missing wrapped descriptor. */
  datatype Error = ArgumentNull
}
