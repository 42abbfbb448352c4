/** The values a template sees. */
module Values {

  /**
   * A value of the namespace: a YAML scalar, sequence or mapping. Nested
   * structure is carried along but never inspected by the renderer.
   */
  datatype Value = Scalar(text: string) | Sequence(items: seq<Value>) | Mapping(entries: map<string, Value>)

  /** The variable namespace (the `Vars` field): top-level name to value. */
  type Namespace = map<string, Value>
}
