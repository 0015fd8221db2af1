/** The idempotency store: a table of event keys whose primary key decides who claims an event. */
module Idempotency {
  import opened Text

  /** What the database does with a statement. Locked and Broken leave nothing behind. */
  datatype Answer = Accepted | Locked | Broken

  /** What happens before one access of this caller: other workers insert keys, then the database answers. */
  datatype Turn = Turn(others: map<string, string>, answer: Answer)

  datatype Marked = Claimed | AlreadyPresent | Raised

  /** Rows that are present stay as they are. */
  function Merge(keys: map<string, string>, others: map<string, string>): map<string, string> {
    others + keys
  }

  /** The table after the other workers' part of the first n turns. */
  function World(keys: map<string, string>, turns: nat -> Turn, n: nat): map<string, string> {
    if n == 0 then keys else Merge(World(keys, turns, n - 1), turns(n - 1).others)
  }

  /** Every turn before the n-th was accepted. */
  predicate Undisturbed(turns: nat -> Turn, n: nat) {
    forall t | 0 <= t < n :: turns(t).answer == Accepted
  }

  /** Rows stay, with their times, and every row is one of before or one that some other worker inserted. */
  lemma {:induction false} WorldGrows(keys: map<string, string>, turns: nat -> Turn, n: nat)
    ensures keys.Keys <= World(keys, turns, n).Keys
    ensures forall k | k in keys :: World(keys, turns, n)[k] == keys[k]
    ensures forall k | k in World(keys, turns, n) && k !in keys ::
              exists t | 0 <= t < n :: k in turns(t).others && turns(t).others[k] == World(keys, turns, n)[k]
    ensures forall t, k | 0 <= t < n && k in turns(t).others :: k in World(keys, turns, n)
  {
    if n == 0 {
    } else {
      WorldGrows(keys, turns, n - 1);
    }
  }

  lemma Disturbed(turns: nat -> Turn, t: nat, n: nat)
    requires t < n && turns(t).answer != Accepted
    ensures !Undisturbed(turns, n)
  {
  }

  // ---------- how a call of mark ends ----------

  /** The i-th insert is accepted and the key is free. */
  predicate WinsAt(keys: map<string, string>, turns: nat -> Turn, id: string, i: nat) {
    turns(2 * i).answer == Accepted && id !in World(keys, turns, 2 * i + 1)
  }

  /** The i-th insert or the look after it meets the key. */
  predicate FindsAt(keys: map<string, string>, turns: nat -> Turn, id: string, i: nat) {
    || (turns(2 * i).answer == Accepted && id in World(keys, turns, 2 * i + 1))
    || (turns(2 * i).answer == Locked && turns(2 * i + 1).answer == Accepted && id in World(keys, turns, 2 * i + 2))
  }

  /** The i-th insert breaks, or it is locked and the look after it is not answered. */
  predicate FailsAt(turns: nat -> Turn, i: nat) {
    turns(2 * i).answer == Broken || (turns(2 * i).answer == Locked && turns(2 * i + 1).answer != Accepted)
  }

  /** The i-th insert is locked and the look after it does not meet the key. */
  predicate GoesOnAt(keys: map<string, string>, turns: nat -> Turn, id: string, i: nat) {
    turns(2 * i).answer == Locked && turns(2 * i + 1).answer == Accepted && id !in World(keys, turns, 2 * i + 2)
  }

  predicate Reaches(keys: map<string, string>, turns: nat -> Turn, id: string, i: nat) {
    forall j | 0 <= j < i :: GoesOnAt(keys, turns, id, j)
  }

  predicate Wins(keys: map<string, string>, turns: nat -> Turn, id: string) {
    exists i | 0 <= i < 5 :: Reaches(keys, turns, id, i) && WinsAt(keys, turns, id, i)
  }

  predicate Finds(keys: map<string, string>, turns: nat -> Turn, id: string) {
    exists i | 0 <= i < 5 :: Reaches(keys, turns, id, i) && FindsAt(keys, turns, id, i)
  }

  predicate GivesUp(keys: map<string, string>, turns: nat -> Turn, id: string) {
    Reaches(keys, turns, id, 5) || exists i | 0 <= i < 5 :: Reaches(keys, turns, id, i) && FailsAt(turns, i)
  }

  lemma OneWayAt(keys: map<string, string>, turns: nat -> Turn, id: string, i: nat)
    ensures WinsAt(keys, turns, id, i) ==>
              !FindsAt(keys, turns, id, i) && !FailsAt(turns, i) && !GoesOnAt(keys, turns, id, i)
    ensures FindsAt(keys, turns, id, i) ==> !FailsAt(turns, i) && !GoesOnAt(keys, turns, id, i)
    ensures FailsAt(turns, i) ==> !GoesOnAt(keys, turns, id, i)
    ensures WinsAt(keys, turns, id, i) || FindsAt(keys, turns, id, i) || FailsAt(turns, i)
        || GoesOnAt(keys, turns, id, i)
  {
  }

  lemma ReachesOnlyThrough(keys: map<string, string>, turns: nat -> Turn, id: string, i: nat, j: nat)
    requires Reaches(keys, turns, id, i) && !GoesOnAt(keys, turns, id, i) && Reaches(keys, turns, id, j)
    ensures j <= i && (j < i ==> GoesOnAt(keys, turns, id, j))
  {
    hide GoesOnAt;
  }

  /** The first round that does not go on decides the call. */
  lemma DecidedAt(keys: map<string, string>, turns: nat -> Turn, id: string, i: nat)
    requires i < 5 && Reaches(keys, turns, id, i) && !GoesOnAt(keys, turns, id, i)
    ensures Wins(keys, turns, id) <==> WinsAt(keys, turns, id, i)
    ensures Finds(keys, turns, id) <==> FindsAt(keys, turns, id, i)
    ensures GivesUp(keys, turns, id) <==> FailsAt(turns, i)
  {
    hide WinsAt, FindsAt, FailsAt, GoesOnAt, Reaches;
    forall j | 0 <= j <= 5 && Reaches(keys, turns, id, j) ensures j <= i && (j < i ==> GoesOnAt(keys, turns, id, j)) {
      ReachesOnlyThrough(keys, turns, id, i, j);
    }
    forall j: nat { OneWayAt(keys, turns, id, j); }
  }

  lemma FiveGoOn(keys: map<string, string>, turns: nat -> Turn, id: string)
    requires Reaches(keys, turns, id, 5)
    ensures GivesUp(keys, turns, id) && !Wins(keys, turns, id) && !Finds(keys, turns, id)
  {
    hide WinsAt, FindsAt, FailsAt, GoesOnAt;
    forall j: nat { OneWayAt(keys, turns, id, j); }
  }

  /** mark keeps its promise never to raise exactly if some round among five ends the call before any round fails. */
  lemma NeverRaisesExactly(keys: map<string, string>, turns: nat -> Turn, id: string)
    ensures GivesUp(keys, turns, id) <==> !Wins(keys, turns, id) && !Finds(keys, turns, id)
    ensures !(Wins(keys, turns, id) && Finds(keys, turns, id))
  {
    hide WinsAt, FindsAt, FailsAt, GoesOnAt, Wins, Finds, GivesUp;
    if Reaches(keys, turns, id, 5) {
      FiveGoOn(keys, turns, id);
    } else {
      var i := FirstStop(keys, turns, id, 5);
      DecidedAt(keys, turns, id, i);
      OneWayAt(keys, turns, id, i);
    }
  }

  lemma {:induction false} FirstStop(keys: map<string, string>, turns: nat -> Turn, id: string, n: nat) returns (i: nat)
    requires !Reaches(keys, turns, id, n)
    ensures i < n && Reaches(keys, turns, id, i) && !GoesOnAt(keys, turns, id, i)
  {
    hide GoesOnAt;
    if Reaches(keys, turns, id, n - 1) {
      i := n - 1;
    } else {
      i := FirstStop(keys, turns, id, n - 1);
    }
  }

  // ---------- the store ----------

  class IdempotencyStore {
    /** event_id to created_at. */
    var keys: map<string, string>

    /** Opens the table with the rows it has. */
    constructor (stored: map<string, string>)
      ensures keys == stored
    {
      keys := stored;
    }

    /** Whether the key was marked; None where reading raises. */
    method Seen(eventId: string, turn: Turn) returns (present: Option<bool>)
      modifies this
      ensures keys == Merge(old(keys), turn.others)
      ensures present == if turn.answer == Accepted then Some(eventId in keys) else None
    {
      keys := Merge(keys, turn.others);
      present := if turn.answer == Accepted then Some(eventId in keys) else None;
    }

    /** One insert: accepted, refused by the primary key, or not executed. */
    method Insert(eventId: string, now: string, turn: Turn) returns (answer: Answer, inserted: bool)
      modifies this
      ensures var world := Merge(old(keys), turn.others);
              && answer == turn.answer
              && (inserted <==> answer == Accepted && eventId !in world)
              && keys == if inserted then world[eventId := now] else world
    {
      keys := Merge(keys, turn.others);
      answer := turn.answer;
      inserted := answer == Accepted && eventId !in keys;
      if inserted {
        keys := keys[eventId := now];
      }
    }

    /** At most five inserts, each followed by a look if it is locked. Claimed: this call inserted the row.
        AlreadyPresent: the row was there. Raised: this call inserted nothing. used counts the turns it took. */
    method Mark(eventId: string, now: string, turns: nat -> Turn) returns (r: Marked, used: nat)
      modifies this
      ensures r == Claimed <==> Wins(old(keys), turns, eventId)
      ensures r == AlreadyPresent <==> Finds(old(keys), turns, eventId)
      ensures r == Raised <==> GivesUp(old(keys), turns, eventId)
      ensures var world := World(old(keys), turns, used);
              match r
              case Claimed => eventId !in world && keys == world[eventId := now]
              case AlreadyPresent => eventId in world && keys == world
              case Raised => keys == world
      ensures 1 <= used <= 10 && (r != Raised ==> turns(used - 1).answer == Accepted)
          && (r == Claimed ==> used % 2 == 1)
      ensures turns(0).answer == Accepted ==> used == 1 && r != Raised
      ensures r == Raised ==> !Undisturbed(turns, used)
    {
      hide Wins, Finds, GivesUp, World, Merge;
      ghost var before := keys;
      used := 0;
      WorldStarts(before, turns);
      for i := 0 to 5
        invariant used == 2 * i && keys == World(before, turns, used)
        invariant Reaches(before, turns, eventId, i)
        invariant i > 0 ==> turns(0).answer == Locked
      {
        WorldTurns(before, turns, 2 * i);
        WorldTurns(before, turns, 2 * i + 1);
        if !GoesOnAt(before, turns, eventId, i) { DecidedAt(before, turns, eventId, i); }
        var answer, inserted := Insert(eventId, now, turns(used));
        used := used + 1;
        if inserted {
          return Claimed, used;
        }
        if answer == Accepted {
          return AlreadyPresent, used;
        }
        Disturbed(turns, 2 * i, used);
        Disturbed(turns, 2 * i, used + 1);
        if answer == Broken {
          return Raised, used;
        }
        var present := Seen(eventId, turns(used));
        used := used + 1;
        if present.None? {
          return Raised, used;
        }
        if present.value {
          return AlreadyPresent, used;
        }
      }
      FiveGoOn(before, turns, eventId);
      Disturbed(turns, 0, used);
      return Raised, used;
    }
  }

  lemma WorldStarts(keys: map<string, string>, turns: nat -> Turn)
    ensures World(keys, turns, 0) == keys
  {
  }

  lemma WorldTurns(keys: map<string, string>, turns: nat -> Turn, n: nat)
    ensures World(keys, turns, n + 1) == Merge(World(keys, turns, n), turns(n).others)
  {
  }

  /** Five locked inserts, each look answered, and nobody else at work. */
  function LockedInserts(n: nat): Turn {
    Turn(map[], if n % 2 == 0 then Locked else Accepted)
  }

  lemma {:induction false} LockedInsertsAddNothing(keys: map<string, string>, n: nat)
    ensures World(keys, LockedInserts, n) == keys
  {
    if n == 0 {
    } else {
      LockedInsertsAddNothing(keys, n - 1);
    }
  }

  /** Lock races alone make mark raise: the answers that it says it absorbs. */
  method MarkUnderLocks(store: IdempotencyStore, eventId: string, now: string) returns (r: Marked)
    requires eventId !in store.keys
    modifies store
    ensures r == Raised && store.keys == old(store.keys)
  {
    ghost var before := store.keys;
    forall i: nat ensures GoesOnAt(before, LockedInserts, eventId, i) { LockedInsertsAddNothing(before, 2 * i + 2); }
    FiveGoOn(before, LockedInserts, eventId);
    var used;
    r, used := store.Mark(eventId, now, LockedInserts);
    LockedInsertsAddNothing(before, used);
  }

  /** Two callers in a row: whoever comes second does not claim the same key. */
  method MarkTwice(store: IdempotencyStore, eventId: string, now: string, first: nat -> Turn, second: nat -> Turn)
    returns (a: Marked, b: Marked)
    modifies store
    ensures a == Claimed || a == AlreadyPresent ==> b != Claimed
    ensures a != Raised && second(0).answer == Accepted ==> b == AlreadyPresent
  {
    var used, used';
    a, used := store.Mark(eventId, now, first);
    ghost var between := store.keys;
    b, used' := store.Mark(eventId, now, second);
    WorldGrows(between, second, used');
  }
}
