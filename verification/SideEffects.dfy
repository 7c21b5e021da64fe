/**
  Durable side-effect records: their statuses, the legal transitions between
  them, and what one transition does to a record.
 */
module SideEffects {
  import opened Common

  datatype Status = Planned | Dispatching | Applied | Confirmed | Failed | Reverted | Uncertain

  /** Identity of an intended or observed effect; the runtime compares nothing else. */
  datatype Effect = Effect(kind: string, target: string)

  datatype ToolResult = ToolResult(ok: bool, content: string, effects: seq<Effect>, evidence: seq<string>)

  /** The part of a record that transitions change. */
  datatype Entry = Entry(
    status: Status,
    attempts: nat,
    toolResult: Option<ToolResult>,
    reconciled: bool,
    resultEvent: Option<string>)

  const NewEntry := Entry(Planned, 0, None, false, None)

  /** Metadata keys that a transition sets; an absent key leaves the record's value alone. */
  datatype Patch = Patch(toolResult: Option<ToolResult>, reconciled: bool, resultEvent: Option<string>)

  const NoPatch := Patch(None, false, None)

  predicate Allowed(from: Status, to: Status) {
    match from
    case Planned => to in {Dispatching, Reverted}
    case Dispatching => to in {Planned, Applied, Failed, Uncertain}
    case Applied => to in {Confirmed, Reverted, Uncertain}
    case Failed => to in {Planned, Reverted}
    case Uncertain => to in {Confirmed, Failed, Reverted}
    case Confirmed => false
    case Reverted => false
  }

  /** The same table read backwards: from where each status can be reached. */
  lemma ReachedFrom(from: Status, to: Status)
    ensures Allowed(from, to) <==>
      match to
      case Planned => from == Dispatching || from == Failed
      case Dispatching => from == Planned
      case Applied => from == Dispatching
      case Confirmed => from == Applied || from == Uncertain
      case Failed => from == Dispatching || from == Uncertain
      case Uncertain => from == Dispatching || from == Applied
      case Reverted => from in {Planned, Applied, Failed, Uncertain}
  {
    match from
    case Planned =>
    case Dispatching =>
    case Applied =>
    case Confirmed =>
    case Failed =>
    case Reverted =>
    case Uncertain =>
  }

  /** One transition: the status moves, dispatching counts an attempt, metadata is merged. */
  function Advance(e: Entry, to: Status, p: Patch): Entry {
    Entry(
      to,
      if to == Dispatching then e.attempts + 1 else e.attempts,
      if p.toolResult.Some? then p.toolResult else e.toolResult,
      e.reconciled || p.reconciled,
      if p.resultEvent.Some? then p.resultEvent else e.resultEvent)
  }

  /** What the operator may answer about an uncertain record. */
  datatype Verdict = VerdictConfirmed(result: ToolResult) | VerdictFailed(info: Option<ToolResult>)
    | VerdictReverted(info: Option<ToolResult>)

  function VerdictStatus(v: Verdict): Status {
    match v
    case VerdictConfirmed(_) => Confirmed
    case VerdictFailed(_) => Failed
    case VerdictReverted(_) => Reverted
  }

  function VerdictPatch(v: Verdict): Patch {
    match v
    case VerdictConfirmed(r) => Patch(Some(r), true, None)
    case VerdictFailed(r) => Patch(r, true, None)
    case VerdictReverted(r) => Patch(r, true, None)
  }
}
