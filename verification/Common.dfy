/** Vocabulary shared by the models. */
module Common {

  /** An opaque Kubernetes identity or name. The programs only compare and order
      these strings, so a number stands for each; NO_UID stands for "". */
  type Uid = nat

  const NO_UID: Uid := 0

  datatype Option<+T> = None | Some(value: T)
}
