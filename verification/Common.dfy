/** What several parts share. */
module Common {

  datatype Option<T> = None | Some(value: T)

  /** A slot is raw memory, or holds a constructed element. */
  datatype Cell<T> = Raw | Live(value: T)

  /** No element twice. */
  ghost predicate Distinct<T>(q: seq<T>) {
    forall i, j :: 0 <= i < j < |q| ==> q[i] != q[j]
  }
}
