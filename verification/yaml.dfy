/** The generic YAML value the injector decodes documents into and builds
    the sidecar bundle from. Mappings are Go maps: unordered, keyed by
    string. */
module Yaml {
  import opened Wrappers

  datatype Node =
    | Null
    | Bool(b: bool)
    | Int(i: int)
    | Str(s: string)
    | List(items: seq<Node>)
    | Mapping(fields: map<string, Node>)

  /** One decoded manifest document (`map[string]interface{}`). */
  type Document = map<string, Node>

  /** Go's `m[k]` on a map of interfaces: a missing key reads as nil. */
  function Field(m: map<string, Node>, k: string): Node {
    if k in m then m[k] else Null
  }

  /** The type assertion `v.([]interface{})`. */
  function AsList(n: Node): Option<seq<Node>> {
    if n.List? then Some(n.items) else None
  }

  /** The type assertion `v.(map[interface{}]interface{})`. */
  function AsMapping(n: Node): Option<map<string, Node>> {
    if n.Mapping? then Some(n.fields) else None
  }

  /** The list stored under `k`, if `k` holds a list at all. */
  function ListField(m: map<string, Node>, k: string): Option<seq<Node>> {
    AsList(Field(m, k))
  }

  /** The mapping stored under `k`, if `k` holds a mapping at all. */
  function MappingField(m: map<string, Node>, k: string): Option<map<string, Node>> {
    AsMapping(Field(m, k))
  }
}
