/** Names shared by every part of the model. */
module Types {

  datatype Option<+T> = None | Some(value: T)

  /** A cluster name; it identifies a cell, a table entry and a configuration. */
  type Key = string

  /** Cells and engines are told apart by identity, never by content: the n-th one allocated has number n. */
  type CellId = nat
  type EngineId = nat

  datatype Role = RoleNone | RoleStandby | RolePrimary

  datatype State = StateCreating | StateStandby | StatePrimary | StateDraining

  /** The SHA-256 fingerprint of a raw configuration, taken to be injective. */
  datatype Hash = Sha256(raw: string)

  /** What compiling a configuration answers; an engine may or may not carry a discovery plugin. */
  datatype Outcome = CompileError | Compiled(discovers: bool)
}
