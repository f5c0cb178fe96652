// What exports and imports name alike.
module ArchiveTypes {
  type Id(==, !new)

  datatype Table = Threads | Messages | ToolCalls | Others

  datatype Entity = Entity(table: Table, id: Id)
}
