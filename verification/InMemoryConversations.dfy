/** The in-memory conversation store: lists in dictionaries, rewritten on every append. */
module InMemoryConversations {
  import opened Common
  import opened ConversationTypes

  class InMemoryConversationStore {
    const retention: nat
    var turns: map<string, seq<Turn>>
    var compactions: map<string, seq<Compaction>>
    /** The sessions kept. */
    ghost var world: World

    ghost predicate Valid()
      reads this
    {
      && retention >= 1
      && ProperWorld(world)
      && (forall id {:trigger TurnsOf(turns, id)} :: TurnsOf(turns, id) == ListedFrom(id, At(world, id), retention, 0))
      && (forall id {:trigger CompactionsOf(compactions, id)} ::
          CompactionsOf(compactions, id) == At(world, id).compactions)
    }

    constructor (retention: nat)
      requires retention >= 1
      ensures Valid() && world == map[] && this.retention == retention
    {
      this.retention := retention;
      turns, compactions, world := map[], map[], map[];
    }

    method AppendTurn(id: string, user: string, assistant: string) returns (r: Result<Turn, Error>)
      requires Valid()
      modifies this
      ensures Valid()
      ensures world == After(old(world), ConversationTypes.AppendTurn(old(world), id, user, assistant)).0
      ensures match ConversationTypes.AppendTurn(old(world), id, user, assistant)
              case Err(e) => r == Err(e)
              case Ok(w) => r == Ok(TurnAt(id, w[id], retention, |w[id].turns| - 1)) && !r.value.archived
    {
      if !ValidSessionId(id) { return Err(InvalidSession); }
      if user == "" || assistant == "" { return Err(EmptyContent); }
      ghost var before := At(world, id);
      var list := TurnsOf(turns, id);
      var turn := Turn(id, |list| + 1, user, assistant, false);
      AppendTurnProper(world, id, user, assistant);
      world := world[id := before.(turns := before.turns + [Exchange(user, assistant)])];
      var archived := Rearchive(list + [turn], HotBoundary(turn.sequence, retention));
      turns := turns[id := archived];
      assert archived == ListedFrom(id, At(world, id), retention, 0);
      Untouched(id, old(turns), turns, old(world), world);
      forall other ensures CompactionsOf(compactions, other) == At(world, other).compactions {
        assert CompactionsOf(compactions, other) == At(old(world), other).compactions
               && At(world, other).compactions == At(old(world), other).compactions;
      }
      r := Ok(turn);
    }

    /** Another session's lists do not change with this one's. */
    lemma Untouched(id: string, t: map<string, seq<Turn>>, t': map<string, seq<Turn>>, w: World, w': World)
      requires forall other {:trigger TurnsOf(t, other)} ::
                 TurnsOf(t, other) == ListedFrom(other, At(w, other), retention, 0)
      requires id in t' && id in w' && t' == t[id := t'[id]] && w' == w[id := w'[id]]
      requires t'[id] == ListedFrom(id, w'[id], retention, 0)
      ensures forall other {:trigger TurnsOf(t', other)} ::
                TurnsOf(t', other) == ListedFrom(other, At(w', other), retention, 0)
    {
      forall other ensures TurnsOf(t', other) == ListedFrom(other, At(w', other), retention, 0) {
        if other != id { assert At(w', other) == At(w, other) && TurnsOf(t', other) == TurnsOf(t, other); }
      }
    }

    method Rearchive(list: seq<Turn>, boundary: int) returns (r: seq<Turn>)
      ensures |r| == |list| && forall i :: 0 <= i < |r| ==> r[i] == list[i].(archived := list[i].sequence < boundary)
    {
      r := [];
      for i := 0 to |list|
        invariant |r| == i && forall k :: 0 <= k < i ==> r[k] == list[k].(archived := list[k].sequence < boundary)
      {
        r := r + [list[i].(archived := list[i].sequence < boundary)];
      }
    }

    method ListTurns(id: string, after: int, archived: bool) returns (r: Result<seq<Turn>, Error>)
      requires Valid()
      ensures r == ListAnswer(world, id, retention, after, archived)
    {
      if !ValidSessionId(id) { return Err(InvalidSession); }
      if after < 0 { return Err(InvalidSequence); }
      var list := TurnsOf(turns, id);
      ghost var s := At(world, id);
      ghost var start := if archived then after else Max(after, HotBoundary(|s.turns|, retention) - 1);
      var found := Filter(list, after, archived, start);
      assert found == Listed(id, s, retention, after, archived);
      r := Ok(found);
    }

    method Filter(list: seq<Turn>, after: int, archived: bool, ghost start: nat) returns (found: seq<Turn>)
      requires forall i :: 0 <= i < |list| ==>
                 (list[i].sequence > after && (archived || !list[i].archived) <==> i >= start)
      ensures found == if start <= |list| then list[start..] else []
    {
      found := [];
      for i := 0 to |list|
        invariant found == if start <= i then list[start..i] else []
      {
        if list[i].sequence > after && (archived || !list[i].archived) { found := found + [list[i]]; }
      }
      assert list[..|list|] == list;
    }

    method LatestCompaction(id: string) returns (r: Result<Option<Compaction>, Error>)
      requires Valid()
      ensures r == LatestAnswer(world, id)
    {
      if !ValidSessionId(id) { return Err(InvalidSession); }
      var items := CompactionsOf(compactions, id);
      assert items == At(world, id).compactions;
      r := Ok(if items == [] then None else Some(items[|items| - 1]));
    }

    method AppendCompaction(c: Compaction) returns (r: Result<Compaction, Error>)
      requires Valid()
      modifies this
      ensures Valid()
      ensures world == After(old(world), ConversationTypes.AppendCompaction(old(world), c)).0
      ensures match ConversationTypes.AppendCompaction(old(world), c)
              case Err(e) => r == Err(e)
              case Ok(_) => r == Ok(c)
    {
      if !ValidCompaction(c) { return Err(InvalidCompaction); }
      var items := CompactionsOf(compactions, c.session);
      ghost var s := At(world, c.session);
      assert items == s.compactions;
      if exists i :: 0 <= i < |items| && items[i].id == c.id {
        return if c in items then Ok(c) else Err(ConflictingId);
      }
      if items != [] && c.through <= items[|items| - 1].through { return Err(NotAdvancing); }
      AppendCompactionProper(world, c);
      world := world[c.session := s.(compactions := s.compactions + [c])];
      compactions := compactions[c.session := items + [c]];
      forall other
        ensures TurnsOf(turns, other) == ListedFrom(other, At(world, other), retention, 0)
        ensures CompactionsOf(compactions, other) == At(world, other).compactions
      {
        assert TurnsOf(turns, other) == ListedFrom(other, At(old(world), other), retention, 0);
        assert CompactionsOf(old(compactions), other) == At(old(world), other).compactions;
      }
      r := Ok(c);
    }
  }

  function TurnsOf(turns: map<string, seq<Turn>>, id: string): seq<Turn> {
    if id in turns then turns[id] else []
  }

  function CompactionsOf(compactions: map<string, seq<Compaction>>, id: string): seq<Compaction> {
    if id in compactions then compactions[id] else []
  }
}
