/**
 * The crate as the preview code sees it through the RO-Crate library: a
 * flattened graph whose property values are always arrays, the root dataset
 * id, and the library calls `getEntity` and `resolveTerm`, given here as
 * function fields.
 */
module Crate {
  import opened Wrappers

  /** One element of a property's value array. */
  datatype Value =
    | Ref(id: string)   // an object carrying "@id" (an empty id is falsy and counts as a plain object)
    | Text(s: string)
    | Number(x: real)
    | Flag(b: bool)
    | Structure         // any other object, such as a `{"@value": ...}` literal

  /** JavaScript truthiness of a value. */
  predicate Truthy(v: Value)
  {
    match v
    case Ref(_) => true
    case Text(s) => s != ""
    case Number(x) => x != 0.0
    case Flag(b) => b
    case Structure => true
  }

  /** A key of an entity object and its value array. */
  datatype Property = Property(key: string, values: seq<Value>)

  /**
   * An entity: its "@id", its "@type" list, its keys in `Object.keys` order
   * and, when present, the keys of its "@reverse" object.
   */
  datatype Entity = Entity(id: string, types: seq<string>, props: seq<Property>, reverse: Option<seq<Property>>)

  /** What `getEntity` returns for an id in the graph: for the preview, only its names matter. */
  datatype Target = Target(names: Option<seq<string>>)

  /**
   * `resolveTerm` returns the empty string for a term the context does not
   * resolve (JavaScript's falsy `undefined`).
   */
  datatype Crate = Crate(
    rootId: string,
    entities: seq<Entity>,
    getEntity: string -> Option<Target>,
    resolveTerm: string -> string)

  /** The id of the metadata descriptor, never shown as a link target. */
  const MetadataId: string := "ro-crate-metadata.json"

  /** The library keeps one entity per "@id". */
  predicate UniqueIds(c: Crate)
  {
    forall i, j :: 0 <= i < j < |c.entities| ==> c.entities[i].id != c.entities[j].id
  }
}
