/**
  What a conversation session is, independently of how a store represents it, and what each
  store operation must answer. Two stores that keep the same sessions answer alike.
 */
module ConversationTypes {
  import opened Common

  datatype Turn = Turn(session: string, sequence: nat, user: string, assistant: string, archived: bool)

  datatype Exchange = Exchange(user: string, assistant: string)

  datatype Reason = RoundThreshold | TokenThreshold

  datatype Compaction = Compaction(
    id: string,
    session: string,
    through: nat,
    summary: string,
    reason: Reason,
    sourceCount: nat,
    inputTokens: nat,
    outputTokens: nat)

  datatype Error = InvalidSession | EmptyContent | InvalidCompaction | ConflictingId | NotAdvancing | InvalidSequence
    | SummaryTooLong | SummarizerFailed

  /** All exchanges of a session in order, and its compactions in order. */
  datatype Session = Session(turns: seq<Exchange>, compactions: seq<Compaction>)

  const NoSession := Session([], [])

  type World = map<string, Session>

  function At(w: World, id: string): Session {
    if id in w then w[id] else NoSession
  }

  predicate ValidSessionId(id: string) {
    && 0 < |id| <= 200
    && (forall i :: 0 <= i < |id| ==> id[i] >= 32 as char)
    && id[0] != ' ' && id[|id| - 1] != ' '
  }

  predicate ValidCompaction(c: Compaction) {
    c.id != "" && ValidSessionId(c.session) && c.through >= 1 && c.summary != "" && c.sourceCount >= 1
  }

  function Max(a: int, b: int): int { if a < b then b else a }

  /** The smallest sequence number that is not archived once there are `n` turns. */
  function HotBoundary(n: nat, retention: nat): int {
    Max(1, n - retention + 1)
  }

  /** The `i`-th turn as any list shows it. */
  function TurnAt(id: string, s: Session, retention: nat, i: nat): Turn
    requires i < |s.turns|
  {
    Turn(id, i + 1, s.turns[i].user, s.turns[i].assistant, i + 1 < HotBoundary(|s.turns|, retention))
  }

  /** The turns after a sequence number, oldest first; archived ones only on request. */
  function Listed(id: string, s: Session, retention: nat, after: nat, archived: bool): (r: seq<Turn>)
  {
    ListedFrom(id, s, retention, if archived then after else Max(after, HotBoundary(|s.turns|, retention) - 1))
  }

  function ListedFrom(id: string, s: Session, retention: nat, after: nat): (r: seq<Turn>)
    ensures |r| == if after < |s.turns| then |s.turns| - after else 0
    ensures forall i :: 0 <= i < |r| ==> r[i] == TurnAt(id, s, retention, after + i)
  {
    if after >= |s.turns| then []
      else seq(|s.turns| - after, i requires 0 <= i < |s.turns| - after => TurnAt(id, s, retention, after + i))
  }

  /** The latest turns are hot, as many as the retention says, and the others archived. */
  lemma HotTurns(id: string, s: Session, retention: nat)
    ensures var all, hot := Listed(id, s, retention, 0, true), Listed(id, s, retention, 0, false);
            && |all| == |s.turns| && |hot| == (if |all| < retention then |all| else retention)
            && hot == all[|all| - |hot|..]
            && forall i :: 0 <= i < |all| ==>
                 && (all[i].archived <==> i < |all| - |hot|)
                 && all[i].sequence == i + 1 && all[i].session == id
                 && all[i].user == s.turns[i].user && all[i].assistant == s.turns[i].assistant
  {
    var all, hot := Listed(id, s, retention, 0, true), Listed(id, s, retention, 0, false);
    forall i | 0 <= i < |hot| ensures hot[i] == all[|all| - |hot| + i] {
      assert hot[i] == TurnAt(id, s, retention, |all| - |hot| + i);
    }
  }

  function ListAnswer(w: World, id: string, retention: nat, after: int, archived: bool): Result<seq<Turn>, Error> {
    if !ValidSessionId(id) then Err(InvalidSession)
    else if after < 0 then Err(InvalidSequence)
    else Ok(Listed(id, At(w, id), retention, after, archived))
  }

  function LatestAnswer(w: World, id: string): Result<Option<Compaction>, Error> {
    if !ValidSessionId(id) then Err(InvalidSession) else Ok(Latest(At(w, id)))
  }

  function Latest(s: Session): Option<Compaction> {
    if s.compactions == [] then None else Some(s.compactions[|s.compactions| - 1])
  }

  function Through(s: Session): nat {
    if s.compactions == [] then 0 else s.compactions[|s.compactions| - 1].through
  }

  predicate HasId(s: Session, id: string) {
    exists i :: 0 <= i < |s.compactions| && s.compactions[i].id == id
  }

  // ---------- operations on sessions ----------

  function AppendTurn(w: World, id: string, user: string, assistant: string): Result<World, Error> {
    if !ValidSessionId(id) then Err(InvalidSession)
    else if user == "" || assistant == "" then Err(EmptyContent)
    else Ok(w[id := At(w, id).(turns := At(w, id).turns + [Exchange(user, assistant)])])
  }

  /** Appending a compaction: repeating one is harmless, reusing its id for another is not,
      and the summarized prefix must advance. Ids are looked up in the session only. */
  function AppendCompaction(w: World, c: Compaction): Result<World, Error> {
    var s := At(w, c.session);
    if !ValidCompaction(c) then Err(InvalidCompaction)
    else if c in s.compactions then Ok(w)
    else if HasId(s, c.id) then Err(ConflictingId)
    else if s.compactions != [] && c.through <= Through(s) then Err(NotAdvancing)
    else Ok(w[c.session := s.(compactions := s.compactions + [c])])
  }

  /** Which compactions are taken: complete ones, either there already word for word, or with an id
      that the session does not use and reaching further than all of its compactions. */
  lemma CompactionAnswers(w: World, c: Compaction)
    requires Proper(c.session, At(w, c.session))
    ensures var r, known := AppendCompaction(w, c), At(w, c.session).compactions;
            var complete := c.id != "" && ValidSessionId(c.session) && c.through > 0 && c.summary != ""
              && c.sourceCount > 0;
            && (r == Err(InvalidCompaction) <==> !complete)
            && (r == Ok(w) <==> complete && c in known)
            && (r.Ok? && c !in known <==>
                 complete && forall i :: 0 <= i < |known| ==> known[i].id != c.id && known[i].through < c.through)
            && (r == Err(ConflictingId) <==>
                 complete && c !in known && exists i :: 0 <= i < |known| && known[i].id == c.id)
            && (r.Err? ==> r.error in {InvalidCompaction, ConflictingId, NotAdvancing})
  {
    var known := At(w, c.session).compactions;
    if known != [] {
      assert forall i :: 0 <= i < |known| ==> known[i].through <= known[|known| - 1].through;
    }
  }

  /** The id belongs to a compaction of another session. */
  ghost predicate Foreign(w: World, c: Compaction) {
    exists id :: id in w && id != c.session && HasId(w[id], c.id)
  }

  /** The same when ids are looked up in every session. */
  ghost function AppendCompactionGlobally(w: World, c: Compaction): Result<World, Error> {
    if ValidCompaction(c) && Foreign(w, c) then Err(ConflictingId) else AppendCompaction(w, c)
  }

  /** What every session satisfies: compactions belong to it, have their own ids, and advance. */
  ghost predicate Proper(id: string, s: Session) {
    && (forall i :: 0 <= i < |s.compactions| ==> s.compactions[i].session == id)
    && (forall i, j :: 0 <= i < j < |s.compactions| ==> s.compactions[i].through < s.compactions[j].through)
    && (forall i, j :: 0 <= i < |s.compactions| && 0 <= j < |s.compactions| ==>
        s.compactions[i].id == s.compactions[j].id ==> i == j)
  }

  ghost predicate ProperWorld(w: World) {
    forall id :: id in w ==> Proper(id, w[id])
  }

  lemma AppendCompactionProper(w: World, c: Compaction)
    requires ProperWorld(w) && AppendCompaction(w, c).Ok?
    ensures ProperWorld(AppendCompaction(w, c).value)
  {
  }

  lemma AppendTurnProper(w: World, id: string, user: string, assistant: string)
    requires ProperWorld(w) && AppendTurn(w, id, user, assistant).Ok?
    ensures ProperWorld(AppendTurn(w, id, user, assistant).value)
  {
  }

  /** What a caller learns from a write. */
  datatype Answer = Done | Refused(error: Error)

  function After(w: World, r: Result<World, Error>): (World, Answer) {
    if r.Ok? then (r.value, Done) else (w, Refused(r.error))
  }
}
