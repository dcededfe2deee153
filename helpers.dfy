/** helpers.py: the player store. Players are created lazily from a template, their
    `lastSeen` only moves forward, and a session tracker keeps per-player `{start, end}`
    sessions together with the global list of names whose session is still open. */
module Helpers {
  import opened Outcomes
  import opened Timestamps

  /** One `{"start": ..., "end": ...}` entry; `end` is None while the session is open. */
  datatype Session = Session(start: Time, end: Option<Time>)

  /** A player record with the fields of `userTemplate`, plus `deathsByMob`, which
      mobmessages.py reads but the template lacks (see the findings in README.md). */
  datatype Player = Player(
    nChunks: int,
    firstSeen: Option<Time>,
    nLogins: int,
    nSuicides: int,
    sessions: seq<Session>,
    nMsg: int,
    totalTime: int,
    planes: seq<string>,
    lastSeen: Option<Time>,
    nDuctTapes: int,
    nKicks: int,
    nMarks: int,
    nMes: int,
    nShouts: int,
    deathsByMob: map<string, int>)

  /** The dictionary the source mutates: `data["players"]` and `data["activeSessions"]`. */
  datatype Data = Data(players: map<string, Player>, activeSessions: seq<string>)

  const UserTemplate: Player :=
    Player(0, None, 0, 0, [], 0, 0, [], None, 0, 0, 0, 0, 0, map[])

  /** `copy.deepcopy(userTemplate)` with `firstSeen` set: the record ensurePlayer inserts. */
  function NewPlayer(t: Time): (p: Player)
    ensures p.firstSeen == Some(t) && p.lastSeen == None
    ensures p.sessions == [] && p.planes == [] && p.deathsByMob == map[]
    ensures p.nChunks == p.nLogins == p.nSuicides == p.nMsg == p.totalTime == 0
    ensures p.nDuctTapes == p.nKicks == p.nMarks == p.nMes == p.nShouts == 0
  {
    UserTemplate.(firstSeen := Some(t))
  }

  /** helpers.py's updateLastSeen: a missing (None) lastSeen becomes t, otherwise the later
      of the two; nothing else in the record changes. */
  function UpdateLastSeen(p: Player, t: Time): (r: Player)
    ensures r == p.(lastSeen := r.lastSeen)
    ensures r.lastSeen.Some? && t <= r.lastSeen.value
    ensures p.lastSeen.Some? ==> p.lastSeen.value <= r.lastSeen.value
    ensures r.lastSeen == Some(t) || r.lastSeen == p.lastSeen
  {
    if p.lastSeen.None? || p.lastSeen.value < t then p.(lastSeen := Some(t)) else p
  }

  /** ensurePlayer on the players map: the new map and whether a player was created. */
  function AddPlayer(players: map<string, Player>, name: string, t: Time): (r: (map<string, Player>, bool))
    ensures r.1 <==> name !in players
    ensures r.1 ==> r.0 == players[name := NewPlayer(t)]
    ensures !r.1 ==> r.0 == players
  {
    if name !in players then (players[name := NewPlayer(t)], true) else (players, false)
  }

  /** The record of `name` that startSession works on: the stored one, or a new one. */
  function Known(players: map<string, Player>, name: string, t: Time): Player {
    if name in players then players[name] else NewPlayer(t)
  }

  /** startSession on the store's value. */
  function OpenSession(d: Data, name: string, t: Time): (r: Data)
    ensures name in r.players
    ensures r.activeSessions == d.activeSessions + [name]
    ensures r.players - {name} == d.players - {name}
    ensures var p, q := Known(d.players, name, t), r.players[name];
      q.sessions == p.sessions + [Session(t, None)] && q.nLogins == p.nLogins + 1 &&
      q == UpdateLastSeen(p, t).(sessions := q.sessions, nLogins := q.nLogins)
  {
    var players := AddPlayer(d.players, name, t).0;
    var p := players[name];
    var p := p.(sessions := p.sessions + [Session(t, None)], nLogins := p.nLogins + 1);
    Data(players[name := UpdateLastSeen(p, t)], d.activeSessions + [name])
  }

  /** Python's list.remove(x): drops the first occurrence of x. */
  function RemoveFirst(s: seq<string>, x: string): (r: seq<string>)
    requires x in s
    ensures |r| == |s| - 1
    ensures multiset(r) == multiset(s) - multiset{x}
  {
    assert s == [s[0]] + s[1..];
    if s[0] == x then s[1..]
    else [s[0]] + RemoveFirst(s[1..], x)
  }

  /** list.remove takes out the first occurrence and keeps the other names in order. */
  lemma {:induction false} RemoveFirstDropsFirst(s: seq<string>, x: string, i: nat)
    requires i < |s| && s[i] == x && x !in s[..i]
    ensures x in s && RemoveFirst(s, x) == s[..i] + s[i + 1..]
  {
    if i > 0 {
      assert s[0] in s[..i];
      var t := s[1..];
      assert t[..i - 1] == s[..i][1..];
      RemoveFirstDropsFirst(t, x, i - 1);
      SpliceTail(s, i - 1);
    }
  }

  /** Dropping position j + 1 of s is keeping its head and dropping position j of its tail. */
  lemma SpliceTail<T>(s: seq<T>, j: nat)
    requires j + 1 < |s|
    ensures s[..j + 1] + s[j + 2..] == [s[0]] + (s[1..][..j] + s[1..][j + 1..])
  {
    assert s[..j + 1] == [s[0]] + s[1..][..j];
    assert s[j + 2..] == s[1..][j + 1..];
  }

  /** endSession on the store's value. The three guards leave everything as it was; a
      name missing from activeSessions makes list.remove raise ValueError. */
  function CloseSession(d: Data, name: string, t: Time): (r: Result<Data>)
    ensures (name !in d.players || d.players[name].sessions == [] ||
             d.players[name].sessions[|d.players[name].sessions| - 1].end.Some?) ==> r == Ok(d)
    ensures r.Err? ==> r.failure == ValueError && name !in d.activeSessions
    ensures r.Ok? && name in d.players && d.players[name].sessions != [] &&
            d.players[name].sessions[|d.players[name].sessions| - 1].end.None? ==>
      var p := d.players[name]; var n := |p.sessions|;
      name in r.value.players && var q := r.value.players[name];
      q.sessions == p.sessions[n - 1 := Session(p.sessions[n - 1].start, Some(t))] &&
      q == UpdateLastSeen(p, t).(sessions := q.sessions) &&
      r.value.players - {name} == d.players - {name} &&
      multiset(r.value.activeSessions) == multiset(d.activeSessions) - multiset{name} &&
      |r.value.activeSessions| == |d.activeSessions| - 1
  {
    if name !in d.players then Ok(d)
    else
      var p := d.players[name];
      var n := |p.sessions|;
      if n == 0 then Ok(d)
      else if p.sessions[n - 1].end.Some? then Ok(d)
      else if name !in d.activeSessions then Err(ValueError)
      else
        var p := p.(sessions := p.sessions[n - 1 := Session(p.sessions[n - 1].start, Some(t))]);
        Ok(Data(d.players[name := UpdateLastSeen(p, t)], RemoveFirst(d.activeSessions, name)))
  }

  // ---------------------------------------------------------------------------
  // The session invariant: every open session is listed once in activeSessions.

  /** How many sessions of a list are still open. */
  function CountOpen(ss: seq<Session>): nat {
    if ss == [] then 0
    else CountOpen(ss[..|ss| - 1]) + (if ss[|ss| - 1].end.None? then 1 else 0)
  }

  function OpenCount(players: map<string, Player>, name: string): nat {
    if name in players then CountOpen(players[name].sessions) else 0
  }

  /** For every name, its number of entries in activeSessions is its number of open sessions. */
  ghost predicate Consistent(d: Data) {
    forall name :: multiset(d.activeSessions)[name] == OpenCount(d.players, name)
  }

  lemma CountOpenAppend(ss: seq<Session>, s: Session)
    ensures CountOpen(ss + [s]) == CountOpen(ss) + (if s.end.None? then 1 else 0)
  {
    assert (ss + [s])[..|ss|] == ss;
  }

  lemma CountOpenCloseLast(ss: seq<Session>, t: Time)
    requires ss != [] && ss[|ss| - 1].end.None?
    ensures CountOpen(ss[|ss| - 1 := Session(ss[|ss| - 1].start, Some(t))]) == CountOpen(ss) - 1
  {
    var ss' := ss[|ss| - 1 := Session(ss[|ss| - 1].start, Some(t))];
    assert ss'[..|ss'| - 1] == ss[..|ss| - 1];
  }

  /** Creating a player (who has no sessions yet) keeps the invariant. */
  lemma AddPlayerKeepsConsistent(d: Data, name: string, t: Time)
    requires Consistent(d)
    ensures Consistent(Data(AddPlayer(d.players, name, t).0, d.activeSessions))
  {
    var players := AddPlayer(d.players, name, t).0;
    forall n ensures multiset(d.activeSessions)[n] == OpenCount(players, n) {
      assert multiset(d.activeSessions)[n] == OpenCount(d.players, n);
    }
  }

  /** startSession keeps the invariant: one more open session, one more entry. */
  lemma OpenSessionKeepsConsistent(d: Data, name: string, t: Time)
    requires Consistent(d)
    ensures Consistent(OpenSession(d, name, t))
  {
    var r := OpenSession(d, name, t);
    var p := Known(d.players, name, t);
    CountOpenAppend(p.sessions, Session(t, None));
    forall n ensures multiset(r.activeSessions)[n] == OpenCount(r.players, n) {
      assert multiset(d.activeSessions)[n] == OpenCount(d.players, n);
      if n != name {
        assert n in r.players <==> n in d.players;
        if n in d.players {
          assert r.players[n] == (r.players - {name})[n];
        }
      }
    }
  }

  /** endSession never raises on a consistent store and keeps the invariant: the list.remove
      in the source always finds the name. */
  lemma CloseSessionKeepsConsistent(d: Data, name: string, t: Time)
    requires Consistent(d)
    ensures CloseSession(d, name, t).Ok? && Consistent(CloseSession(d, name, t).value)
  {
    assert multiset(d.activeSessions)[name] == OpenCount(d.players, name);
    if name in d.players && d.players[name].sessions != [] {
      var ss := d.players[name].sessions;
      if ss[|ss| - 1].end.None? {
        assert CountOpen(ss) >= 1;
        assert name in d.activeSessions;
        CountOpenCloseLast(ss, t);
        var r := CloseSession(d, name, t).value;
        forall n ensures multiset(r.activeSessions)[n] == OpenCount(r.players, n) {
          assert multiset(d.activeSessions)[n] == OpenCount(d.players, n);
        }
      }
    }
  }

  // ---------------------------------------------------------------------------
  // What the operations never change.

  /** `after` extends `before`: no session is dropped, no start is rewritten, and a closed
      session stays as it was. */
  ghost predicate SessionsGrow(before: seq<Session>, after: seq<Session>) {
    |before| <= |after| &&
    forall i | 0 <= i < |before| :: after[i].start == before[i].start && (before[i].end.Some? ==> after[i] == before[i])
  }

  /** Nothing that a later call may not change has changed for a known player. */
  ghost predicate Preserved(before: Player, after: Player) {
    after.firstSeen == before.firstSeen &&
    SessionsGrow(before.sessions, after.sessions) &&
    (before.lastSeen.Some? ==> after.lastSeen.Some? && before.lastSeen.value <= after.lastSeen.value)
  }

  /** firstSeen is written only at creation, sessions are append-only and lastSeen never
      moves back, whichever of the three store operations runs. */
  lemma OperationsPreserve(d: Data, name: string, t: Time)
    ensures forall n | n in d.players ::
      (n in AddPlayer(d.players, name, t).0 && Preserved(d.players[n], AddPlayer(d.players, name, t).0[n]))
    ensures forall n | n in d.players ::
      (n in OpenSession(d, name, t).players && Preserved(d.players[n], OpenSession(d, name, t).players[n]))
    ensures CloseSession(d, name, t).Ok? ==> forall n | n in d.players ::
      (n in CloseSession(d, name, t).value.players && Preserved(d.players[n], CloseSession(d, name, t).value.players[n]))
  {
    var r := OpenSession(d, name, t);
    forall n | n in d.players ensures n in r.players && Preserved(d.players[n], r.players[n]) {
      if n != name {
        assert r.players[n] == (r.players - {name})[n] == (d.players - {name})[n];
      }
    }
    var c := CloseSession(d, name, t);
    if c.Ok? {
      forall n | n in d.players ensures n in c.value.players && Preserved(d.players[n], c.value.players[n]) {
        if n != name && c.value != d {
          assert c.value.players[n] == (c.value.players - {name})[n] == (d.players - {name})[n];
        }
      }
    }
  }

  /** The source allows more than one open session per player: two joins without a leave
      leave two open sessions and the name twice in activeSessions. */
  lemma TwoOpensWithoutClose(d: Data, name: string, t1: Time, t2: Time)
    requires name !in d.players && name !in d.activeSessions
    ensures var r := OpenSession(OpenSession(d, name, t1), name, t2);
      CountOpen(r.players[name].sessions) == 2 && multiset(r.activeSessions)[name] == 2
  {
    var r1 := OpenSession(d, name, t1);
    var r := OpenSession(r1, name, t2);
    CountOpenAppend([], Session(t1, None));
    assert [] + [Session(t1, None)] == [Session(t1, None)];
    CountOpenAppend([Session(t1, None)], Session(t2, None));
  }

  // ---------------------------------------------------------------------------
  // A whole run of joins and leaves.

  datatype SessionEvent = Open(name: string, at: Time) | Close(name: string, at: Time)

  function Replay(d: Data, evs: seq<SessionEvent>): Result<Data>
  {
    if evs == [] then Ok(d)
    else match Replay(d, evs[..|evs| - 1])
      case Err(f) => Err(f)
      case Ok(d') =>
        match evs[|evs| - 1]
        case Open(n, t) => Ok(OpenSession(d', n, t))
        case Close(n, t) => CloseSession(d', n, t)
  }

  /** From a consistent store (the empty one, say) any sequence of joins and leaves runs
      without the remove ever failing, and the invariant holds at the end. */
  lemma {:induction false} ReplayKeepsConsistent(d: Data, evs: seq<SessionEvent>)
    requires Consistent(d)
    ensures Replay(d, evs).Ok? && Consistent(Replay(d, evs).value)
  {
    if evs != [] {
      ReplayKeepsConsistent(d, evs[..|evs| - 1]);
      var d' := Replay(d, evs[..|evs| - 1]).value;
      match evs[|evs| - 1]
      case Open(n, t) => OpenSessionKeepsConsistent(d', n, t);
      case Close(n, t) => CloseSessionKeepsConsistent(d', n, t);
    }
  }

  // ---------------------------------------------------------------------------
  // The store as the source holds it: one object updated in place.

  class Store {
    var players: map<string, Player>
    var activeSessions: seq<string>

    function Value(): Data
      reads this
    {
      Data(players, activeSessions)
    }

    ghost predicate Valid()
      reads this
    {
      Consistent(Value())
    }

    constructor ()
      ensures Valid() && players == map[] && activeSessions == []
    {
      players := map[];
      activeSessions := [];
    }

    /** ensurePlayer: True and a fresh record exactly when the name was unknown. */
    method EnsurePlayer(name: string, t: Time) returns (created: bool)
      requires Valid()
      modifies this
      ensures Valid()
      ensures (players, created) == AddPlayer(old(players), name, t)
      ensures activeSessions == old(activeSessions)
    {
      AddPlayerKeepsConsistent(Value(), name, t);
      if name !in players {
        players := players[name := NewPlayer(t)];
        created := true;
      } else {
        created := false;
      }
    }

    /** startSession. */
    method StartSession(name: string, t: Time)
      requires Valid()
      modifies this
      ensures Valid()
      ensures Value() == OpenSession(old(Value()), name, t)
    {
      ghost var d := Value();
      OpenSessionKeepsConsistent(d, name, t);
      var _ := EnsurePlayer(name, t);
      var p := players[name];
      p := p.(sessions := p.sessions + [Session(t, None)]);
      p := p.(nLogins := p.nLogins + 1);
      p := UpdateLastSeen(p, t);
      players := players[name := p];
      activeSessions := activeSessions + [name];
      assert players == OpenSession(d, name, t).players;
    }

    /** endSession. */
    method EndSession(name: string, t: Time)
      requires Valid()
      modifies this
      ensures Valid()
      ensures Ok(Value()) == CloseSession(old(Value()), name, t)
    {
      CloseSessionKeepsConsistent(Value(), name, t);
      if name !in players {
        return;
      }
      var p := players[name];
      if |p.sessions| == 0 {
        return;
      }
      if p.sessions[|p.sessions| - 1].end.Some? {
        return;
      }
      var last := p.sessions[|p.sessions| - 1];
      p := p.(sessions := p.sessions[|p.sessions| - 1 := Session(last.start, Some(t))]);
      p := UpdateLastSeen(p, t);
      players := players[name := p];
      activeSessions := RemoveFirst(activeSessions, name);
    }
  }
}
