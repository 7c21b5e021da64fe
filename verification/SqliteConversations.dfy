/** The SQLite conversation store: two tables, rows addressed by key, queries over all rows. */
module SqliteConversations {
  import opened Common
  import opened ConversationTypes

  /** A row of the turns table; its primary key is session and sequence. */
  datatype Row = Row(user: string, assistant: string, archived: bool)

  type TurnTable = map<(string, nat), Row>
  type CompactionTable = map<string, Compaction>

  function ToTurn(key: (string, nat), row: Row): Turn {
    Turn(key.0, key.1, row.user, row.assistant, row.archived)
  }

  /** The rows are exactly the sessions' turns, with their archive flags. */
  ghost predicate TurnsMatch(rows: TurnTable, w: World, retention: nat) {
    && (forall id, k :: (id, k) in rows <==> 1 <= k <= |At(w, id).turns|)
    && (forall id, k :: (id, k) in rows && 1 <= k <= |At(w, id).turns| ==>
        ToTurn((id, k), rows[(id, k)]) == TurnAt(id, At(w, id), retention, k - 1))
  }

  /** The rows are exactly the sessions' compactions, each under its id. */
  ghost predicate CompactionsMatch(rows: CompactionTable, w: World) {
    && (forall key :: key in rows ==>
        rows[key].id == key && rows[key].session in w && rows[key] in w[rows[key].session].compactions)
    && (forall id, i :: id in w && 0 <= i < |w[id].compactions| ==>
        w[id].compactions[i].id in rows && rows[w[id].compactions[i].id] == w[id].compactions[i])
  }

  /** One update of every row of a session. */
  function Rearchived(rows: TurnTable, id: string, boundary: int): (r: TurnTable)
    ensures r.Keys == rows.Keys
    ensures forall key: (string, nat) :: key in rows ==>
              r[key] == if key.0 == id then rows[key].(archived := key.1 < boundary) else rows[key]
  {
    map key: (string, nat) | key in rows :: if key.0 == id then rows[key].(archived := key.1 < boundary) else rows[key]
  }

  class SqliteConversationStore {
    const retention: nat
    var turnRows: TurnTable
    var compactionRows: CompactionTable
    /** The sessions kept. */
    ghost var world: World

    ghost predicate Valid()
      reads this
    {
      && retention >= 1
      && ProperWorld(world)
      && TurnsMatch(turnRows, world, retention)
      && CompactionsMatch(compactionRows, world)
    }

    constructor (retention: nat)
      requires retention >= 1
      ensures Valid() && world == map[] && this.retention == retention
    {
      this.retention := retention;
      turnRows, compactionRows, world := map[], map[], map[];
    }

    /** The greatest sequence of a session's rows, or 0. */
    method MaxSequence(id: string) returns (m: nat)
      requires Valid()
      ensures m == |At(world, id).turns|
    {
      m := 0;
      var keys := turnRows.Keys;
      while keys != {}
        invariant keys <= turnRows.Keys
        invariant forall k :: (id, k) in turnRows && (id, k) !in keys ==> k <= m
        invariant m == 0 || (id, m) in turnRows
        decreases |keys|
      {
        var key: (string, nat) :| key in keys;
        if key.0 == id && key.1 > m { m := key.1; }
        keys := keys - {key};
      }
      if |At(world, id).turns| > 0 { assert (id, |At(world, id).turns|) in turnRows; }
    }

    method AppendTurn(id: string, user: string, assistant: string) returns (r: Result<Turn, Error>)
      requires Valid()
      modifies this
      ensures Valid()
      ensures world == After(old(world), ConversationTypes.AppendTurn(old(world), id, user, assistant)).0
      ensures match ConversationTypes.AppendTurn(old(world), id, user, assistant)
              case Err(e) => r == Err(e)
              case Ok(w) => r == Ok(TurnAt(id, w[id], retention, |w[id].turns| - 1)) && !r.value.archived
    {
      if !ValidSessionId(id) { return Err(InvalidSession); }
      if user == "" || assistant == "" { return Err(EmptyContent); }
      var last := MaxSequence(id);
      InsertTurn(id, user, assistant, last + 1);
      r := Ok(Turn(id, last + 1, user, assistant, false));
    }

    method InsertTurn(id: string, user: string, assistant: string, sequence: nat)
      requires Valid() && ValidSessionId(id) && user != "" && assistant != "" && sequence == |At(world, id).turns| + 1
      modifies this`turnRows, this`world
      ensures Valid() && world ==
                old(world)[id := At(old(world), id).(turns := At(old(world), id).turns + [Exchange(user, assistant)])]
    {
      ghost var s := At(world, id);
      AppendTurnProper(world, id, user, assistant);
      world := world[id := s.(turns := s.turns + [Exchange(user, assistant)])];
      var boundary := HotBoundary(sequence, retention);
      var inserted := turnRows[(id, sequence) := Row(user, assistant, false)];
      turnRows := Rearchived(inserted, id, boundary);
      AppendedRows(old(turnRows), old(world), id, user, assistant, turnRows, world);
      AppendedKeepsCompactions(old(world), id, world);
    }

    lemma AppendedRows(rows: TurnTable, w: World, id: string, user: string, assistant: string, rows': TurnTable,
        w': World)
      requires retention >= 1 && TurnsMatch(rows, w, retention)
      requires w' == w[id := At(w, id).(turns := At(w, id).turns + [Exchange(user, assistant)])]
      requires rows' ==
                 Rearchived(rows[(id, |At(w, id).turns| + 1) := Row(user, assistant, false)], id,
                     HotBoundary(|At(w, id).turns| + 1, retention))
      ensures TurnsMatch(rows', w', retention)
    {
      var n := |At(w, id).turns| + 1;
      forall other, k ensures (other, k) in rows' <==> 1 <= k <= |At(w', other).turns| {
        assert (other, k) in rows <==> 1 <= k <= |At(w, other).turns|;
      }
      forall other, k | (other, k) in rows' && 1 <= k <= |At(w', other).turns|
        ensures ToTurn((other, k), rows'[(other, k)]) == TurnAt(other, At(w', other), retention, k - 1)
      {
        if (other, k) != (id, n) {
          assert (other, k) in rows
                 && ToTurn((other, k), rows[(other, k)]) == TurnAt(other, At(w, other), retention, k - 1);
        }
      }
    }

    lemma AppendedKeepsCompactions(w: World, id: string, w': World)
      requires id in w' && w' == w[id := w'[id]] && w'[id].compactions == At(w, id).compactions
      requires CompactionsMatch(compactionRows, w)
      ensures CompactionsMatch(compactionRows, w')
    {
      forall other, i | other in w' && 0 <= i < |w'[other].compactions|
        ensures w'[other].compactions[i].id in compactionRows
                && compactionRows[w'[other].compactions[i].id] == w'[other].compactions[i]
      {
        assert w'[other].compactions == At(w, other).compactions;
        assert other in w;
      }
    }

    method ListTurns(id: string, after: int, archived: bool) returns (r: Result<seq<Turn>, Error>)
      requires Valid()
      ensures r == ListAnswer(world, id, retention, after, archived)
    {
      if !ValidSessionId(id) { return Err(InvalidSession); }
      if after < 0 { return Err(InvalidSequence); }
      var last := MaxSequence(id);
      ghost var s := At(world, id);
      ghost var start := if archived then after else Max(after, HotBoundary(|s.turns|, retention) - 1);
      var found: seq<Turn> := [];
      for i := 0 to last
        invariant |found| == if i < start then 0 else i - start
        invariant forall k :: 0 <= k < |found| ==> found[k] == TurnAt(id, s, retention, start + k)
      {
        assert (id, i + 1) in turnRows && ToTurn((id, i + 1), turnRows[(id, i + 1)]) == TurnAt(id, s, retention, i);
        var row := turnRows[(id, i + 1)];
        if i + 1 > after && (archived || !row.archived) { found := found + [ToTurn((id, i + 1), row)]; }
      }
      assert found == Listed(id, s, retention, after, archived);
      r := Ok(found);
    }

    /** The session's row that reaches furthest. */
    method LatestRow(id: string) returns (r: Option<Compaction>)
      requires Valid()
      ensures r == Latest(At(world, id))
    {
      r := None;
      var keys := compactionRows.Keys;
      while keys != {}
        invariant keys <= compactionRows.Keys
        invariant r.Some? ==>
                    r.value.id in compactionRows && compactionRows[r.value.id] == r.value && r.value.session == id
        invariant forall key :: key in compactionRows && key !in keys && compactionRows[key].session == id ==>
                    r.Some? && compactionRows[key].through <= r.value.through
        decreases |keys|
      {
        var key :| key in keys;
        var row := compactionRows[key];
        if row.session == id && (r.None? || r.value.through < row.through) { r := Some(row); }
        keys := keys - {key};
      }
      GreatestIsLast(id, r);
    }

    lemma GreatestIsLast(id: string, r: Option<Compaction>)
      requires Valid()
      requires r.Some? ==>
                 r.value.id in compactionRows && compactionRows[r.value.id] == r.value && r.value.session == id
      requires forall key :: key in compactionRows && compactionRows[key].session == id ==>
                 r.Some? && compactionRows[key].through <= r.value.through
      ensures r == Latest(At(world, id))
    {
      var s := At(world, id);
      var n := |s.compactions|;
      assert n > 0 ==>
               s.compactions[n - 1].id in compactionRows
                 && compactionRows[s.compactions[n - 1].id] == s.compactions[n - 1];
      if r.Some? {
        assert r.value in s.compactions;
        var i :| 0 <= i < |s.compactions| && s.compactions[i] == r.value;
        assert s.compactions[n - 1].through <= r.value.through;
      }
    }

    method LatestCompaction(id: string) returns (r: Result<Option<Compaction>, Error>)
      requires Valid()
      ensures r == LatestAnswer(world, id)
    {
      if !ValidSessionId(id) { return Err(InvalidSession); }
      var latest := LatestRow(id);
      r := Ok(latest);
    }

    method AppendCompaction(c: Compaction) returns (r: Result<Compaction, Error>)
      requires Valid()
      modifies this
      ensures Valid()
      ensures world == After(old(world), AppendCompactionGlobally(old(world), c)).0
      ensures match AppendCompactionGlobally(old(world), c) case Err(e) => r == Err(e) case Ok(_) => r == Ok(c)
    {
      if !ValidCompaction(c) { return Err(InvalidCompaction); }
      KeyedById(c);
      if c.id in compactionRows {
        return if compactionRows[c.id] == c then Ok(c) else Err(ConflictingId);
      }
      var latest := LatestRow(c.session);
      if latest.Some? && c.through <= latest.value.through { return Err(NotAdvancing); }
      InsertCompaction(c);
      r := Ok(c);
    }

    method InsertCompaction(c: Compaction)
      requires Valid() && c.id !in compactionRows && ConversationTypes.AppendCompaction(world, c).Ok?
               && c !in At(world, c.session).compactions
      modifies this`compactionRows, this`world
      ensures Valid() && world == ConversationTypes.AppendCompaction(old(world), c).value
    {
      ghost var s := At(world, c.session);
      AppendCompactionProper(world, c);
      world := world[c.session := s.(compactions := s.compactions + [c])];
      compactionRows := compactionRows[c.id := c];
      SameTurns(old(world), world);
      InsertedMatches(old(compactionRows), old(world), c, world);
    }

    /** The table finds by id what a search of every session would. */
    lemma KeyedById(c: Compaction)
      requires Valid()
      ensures c.id in compactionRows <==> HasId(At(world, c.session), c.id) || Foreign(world, c)
      ensures c.id in compactionRows && compactionRows[c.id] == c <==> c in At(world, c.session).compactions
      ensures ValidCompaction(c) && c.id in compactionRows ==>
                AppendCompactionGlobally(world, c) == if compactionRows[c.id] == c then Ok(world)
                  else Err(ConflictingId)
    {
      if c.id in compactionRows {
        var row := compactionRows[c.id];
        var i :| 0 <= i < |world[row.session].compactions| && world[row.session].compactions[i] == row;
        assert HasId(world[row.session], c.id);
      }
    }

    lemma SameTurns(w: World, w': World)
      requires TurnsMatch(turnRows, w, retention) && forall id :: At(w', id).turns == At(w, id).turns
      ensures TurnsMatch(turnRows, w', retention)
    {
    }

    lemma InsertedMatches(rows: CompactionTable, w: World, c: Compaction, w': World)
      requires CompactionsMatch(rows, w) && c.id !in rows
      requires w' == w[c.session := At(w, c.session).(compactions := At(w, c.session).compactions + [c])]
      ensures CompactionsMatch(rows[c.id := c], w')
    {
      var rows' := rows[c.id := c];
      var s, s' := At(w, c.session), w'[c.session];
      forall key | key in rows'
        ensures rows'[key].id == key && rows'[key].session in w' && rows'[key] in w'[rows'[key].session].compactions {
        if key == c.id { assert s'.compactions[|s.compactions|] == c; }
      }
      forall id, i | id in w' && 0 <= i < |w'[id].compactions|
        ensures w'[id].compactions[i].id in rows' && rows'[w'[id].compactions[i].id] == w'[id].compactions[i]
      {
        if id != c.session || i < |s.compactions| {
          assert w'[id].compactions[i] == At(w, id).compactions[i] && id in w;
        }
      }
    }
  }
}
