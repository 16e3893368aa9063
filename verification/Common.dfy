/** Small shared vocabulary: optional values and the key that names a Cluster. */
module Common {
  datatype Option<+T> = None | Some(value: T)

  datatype ObjectKey = ObjectKey(namespace: string, name: string)
}
