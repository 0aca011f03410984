/** Small result types shared by every module, and the annotation maps of
    Kubernetes objects, where a nil map is different from an empty one. */
module Wrappers {
  datatype Option<+T> = None | Some(value: T)

  datatype Result<+T, +E> = Success(value: T) | Failure(error: E)

  /** What a remote call does. `Lost` fails without effect, `Late` takes
      effect although the caller is told that it failed. */
  datatype Fault = Fine | Lost | Late

  type Annotations = Option<map<string, string>>

  /** Reading a key of a possibly nil Go map: absent keys read as "". */
  function Lookup(annotations: Annotations, key: string): string {
    if annotations.Some? && key in annotations.value then annotations.value[key] else ""
  }

  /** The set of items of a list. */
  function Items<T>(list: seq<T>): set<T> {
    set x | x in list
  }

  ghost predicate Distinct<T>(list: seq<T>) {
    forall i, j | 0 <= i < j < |list| :: list[i] != list[j]
  }
}
