/** Links between assets: an index into a catalogue with the zone it came from, or
    the reason there is none. crates/asset_core/src/ident.rs. */
module AssetEdges {
  type Namespace = nat
  type Zone = string

  datatype EdgeReason = TempFieldNotAliasable | CatalogMiss

  datatype Edge = Bound(index: nat, zone: Zone) | Unresolved(reason: EdgeReason) | Absent

  /** A name within a namespace. */
  datatype Key = Key(namespace: Namespace, name: string)

  /** A leading comma marks a reference and is no part of the name. */
  function BareName(name: string): string {
    if name != "" && name[0] == ',' then name[1..] else name
  }
}
