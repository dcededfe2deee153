/** analyze.py: the passes that fold a day-by-day chat log into per-player statistics.
    Each pass reads every line of every file in order; its regular expression is not
    modelled: a line arrives already classified as the Event that pattern recognises,
    carrying the strings the pattern captured. */
module Analyze {
  import opened Outcomes
  import opened Strings
  import opened Timestamps

  /** `d[name]` in analyze.py: a dictionary whose keys appear as the passes need them;
      None stands for a key that is not there. `totalTime` is a timedelta in seconds. */
  datatype Rec = Rec(
    chunks: Option<int>,
    nLogin: Option<int>,
    firstLogin: Option<Time>,
    start: Option<Time>,
    lastSeen: Option<Time>,
    totalTime: Option<int>,
    nMsg: Option<int>,
    planes: Option<seq<string>>)

  const EmptyRec := Rec(None, None, None, None, None, None, None, None)

  type Players = map<string, Rec>

  /** A log line as the pass's pattern classifies it; `stamp` holds the six captured
      timestamp groups. A mapgen line's chunk count is the captured digit string. */
  datatype Event =
    | Join(name: string, stamp: seq<string>)
    | Leave(name: string, stamp: seq<string>)
    | Chat(name: string, stamp: seq<string>)
    | Shift(name: string, plane: string)
    | Blame(name: string, chunks: string, stamp: seq<string>)
    | Anon(chunks: string, tail: char, stamp: seq<string>)
    | Other

  /** One day's log: its path and its lines in order. */
  datatype LogFile = LogFile(path: string, lines: seq<Event>)

  /** A counter after `if not d[name].get(key): d[name][key] = 0`: a missing key counts as 0. */
  function Num(o: Option<int>): int {
    if o.None? then 0 else o.value
  }

  /** `not d[name].get(key)`: the key is missing or holds 0. */
  predicate Falsy(o: Option<int>) {
    o.None? || o.value == 0
  }

  /** `if not d.get(name): d[name] = {}`. */
  function Touch(d: Players, name: string): (r: Players)
    ensures name in r && r - {name} == d - {name}
    ensures name in d ==> r == d
    ensures name !in d ==> r[name] == EmptyRec
  {
    if name in d then d else d[name := EmptyRec]
  }

  function RecOf(d: Players, name: string): Rec {
    if name in d then d[name] else EmptyRec
  }

  /** lastSeen after updateLastSeen with t: at least t, at least what it was, and one of the two. */
  predicate Advanced(before: Option<Time>, after: Option<Time>, t: Time) {
    after.Some? && t <= after.value && (before.Some? ==> before.value <= after.value) &&
    (after.value == t || after == before)
  }

  /** analyze.py's updateLastSeen: a missing lastSeen becomes t, otherwise the later of the two. */
  function UpdateLastSeen(r: Rec, t: Time): (r': Rec)
    ensures Advanced(r.lastSeen, r'.lastSeen, t)
    ensures r' == r.(lastSeen := r'.lastSeen)
  {
    if r.lastSeen.None? || r.lastSeen.value < t then r.(lastSeen := Some(t)) else r
  }

  /** The captured timestamp groups as seconds; ValueError or IndexError as datetime() would raise. */
  function StampTime(stamp: seq<string>): (r: Result<Time>)
    ensures r.Ok? <==> DatetimeFromGroups(stamp).Ok?
    ensures r.Ok? ==> r.value == ToSeconds(DatetimeFromGroups(stamp).value)
  {
    match DatetimeFromGroups(stamp)
    case Err(f) => Err(f)
    case Ok(t) => Ok(ToSeconds(t))
  }

  // ---------------------------------------------------------------------------
  // Running a pass: every line of every file, in order; the first exception ends it.

  function RunEvents<S>(step: (S, Event) -> Result<S>, s: S, evs: seq<Event>): Result<S>
  {
    if evs == [] then Ok(s)
    else match RunEvents(step, s, evs[..|evs| - 1])
      case Err(f) => Err(f)
      case Ok(s') => step(s', evs[|evs| - 1])
  }

  /** `onFile` is what a pass does when it opens a file, before reading its lines. */
  function RunFiles<S>(onFile: (S, string) -> Result<S>, step: (S, Event) -> Result<S>, s: S, files: seq<LogFile>): Result<S>
  {
    if files == [] then Ok(s)
    else match RunFiles(onFile, step, s, files[..|files| - 1])
      case Err(f) => Err(f)
      case Ok(s') =>
        match onFile(s', files[|files| - 1].path)
        case Err(f) => Err(f)
        case Ok(s'') => RunEvents(step, s'', files[|files| - 1].lines)
  }

  lemma {:induction false} RunEventsErrStays<S>(step: (S, Event) -> Result<S>, s: S, evs: seq<Event>, j: nat)
    requires j <= |evs| && RunEvents(step, s, evs[..j]).Err?
    ensures RunEvents(step, s, evs) == RunEvents(step, s, evs[..j])
    decreases |evs|
  {
    if j < |evs| {
      assert evs[..|evs| - 1][..j] == evs[..j];
      RunEventsErrStays(step, s, evs[..|evs| - 1], j);
    } else {
      assert evs[..j] == evs;
    }
  }

  lemma {:induction false} RunFilesErrStays<S>(onFile: (S, string) -> Result<S>, step: (S, Event) -> Result<S>, s: S, files: seq<LogFile>, j: nat)
    requires j <= |files| && RunFiles(onFile, step, s, files[..j]).Err?
    ensures RunFiles(onFile, step, s, files) == RunFiles(onFile, step, s, files[..j])
    decreases |files|
  {
    if j < |files| {
      assert files[..|files| - 1][..j] == files[..j];
      RunFilesErrStays(onFile, step, s, files[..|files| - 1], j);
    } else {
      assert files[..j] == files;
    }
  }

  /** The loops every analyze* function runs: `for fileName in files: with open(fileName)
      as f: for l in f: ...`, stopping at the first exception. */
  method Pass<S>(onFile: (S, string) -> Result<S>, step: (S, Event) -> Result<S>, s0: S, files: seq<LogFile>)
    returns (r: Result<S>)
    ensures r == RunFiles(onFile, step, s0, files)
  {
    var s := s0;
    var i := 0;
    while i < |files|
      invariant 0 <= i <= |files|
      invariant RunFiles(onFile, step, s0, files[..i]) == Ok(s)
    {
      var file := files[i];
      assert files[..i + 1][..i] == files[..i];
      var first := onFile(s, file.path);
      if first.Err? {
        RunFilesErrStays(onFile, step, s0, files, i + 1);
        return first;
      }
      var cur := first.value;
      var j := 0;
      while j < |file.lines|
        invariant 0 <= j <= |file.lines|
        invariant RunEvents(step, first.value, file.lines[..j]) == Ok(cur)
      {
        assert file.lines[..j + 1][..j] == file.lines[..j];
        var next := step(cur, file.lines[j]);
        if next.Err? {
          RunEventsErrStays(step, first.value, file.lines, j + 1);
          RunFilesErrStays(onFile, step, s0, files, i + 1);
          return next;
        }
        cur := next.value;
        j := j + 1;
      }
      assert file.lines[..j] == file.lines;
      s := cur;
      i := i + 1;
    }
    assert files[..i] == files;
    r := Ok(s);
  }

  /** Every line of every file, in reading order. */
  function Lines(files: seq<LogFile>): seq<Event> {
    if files == [] then [] else Lines(files[..|files| - 1]) + files[|files| - 1].lines
  }

  function KeepState<S>(s: S, path: string): Result<S> {
    Ok(s)
  }

  lemma {:induction false} RunEventsAppend<S>(step: (S, Event) -> Result<S>, s: S, a: seq<Event>, b: seq<Event>)
    ensures RunEvents(step, s, a + b) ==
      match RunEvents(step, s, a) case Err(f) => Err(f) case Ok(s') => RunEvents(step, s', b)
    decreases |b|
  {
    if b == [] {
      assert a + b == a;
    } else {
      assert (a + b)[..|a + b| - 1] == a + b[..|b| - 1];
      RunEventsAppend(step, s, a, b[..|b| - 1]);
    }
  }

  /** For a pass that does nothing on opening a file, file boundaries do not matter: the
      pass is one fold over all lines. */
  lemma {:induction false} RunFilesIsRunLines<S>(step: (S, Event) -> Result<S>, s: S, files: seq<LogFile>)
    ensures RunFiles(KeepState, step, s, files) == RunEvents(step, s, Lines(files))
    decreases |files|
  {
    if files != [] {
      RunFilesIsRunLines(step, s, files[..|files| - 1]);
      RunEventsAppend(step, s, Lines(files[..|files| - 1]), files[|files| - 1].lines);
    }
  }

  // ---------------------------------------------------------------------------
  // analyzeLogins

  function LoginStep(d: Players, e: Event): (r: Result<Players>)
    ensures (e.Join? || e.Leave?) ==> (r.Ok? <==> StampTime(e.stamp).Ok?)
    ensures !(e.Join? || e.Leave?) ==> r == Ok(d)
    // A join creates the record if needed, sets firstLogin only when nLogin was missing or
    // 0, counts the login, sets start and advances lastSeen.
    ensures e.Join? && r.Ok? ==>
      var t, n, before := StampTime(e.stamp).value, e.name, RecOf(d, e.name);
      n in r.value && r.value - {n} == d - {n} &&
      var after := r.value[n];
      after.nLogin == Some(Num(before.nLogin) + 1) && after.start == Some(t) &&
      after.firstLogin == (if Falsy(before.nLogin) then Some(t) else before.firstLogin) &&
      Advanced(before.lastSeen, after.lastSeen, t) &&
      after.(nLogin := before.nLogin, start := before.start, firstLogin := before.firstLogin,
             lastSeen := before.lastSeen) == before
    // A leave without a recorded start changes nothing; otherwise it adds the time since
    // the latest start to totalTime (start stays) and advances lastSeen.
    ensures e.Leave? && r.Ok? ==>
      var t, n := StampTime(e.stamp).value, e.name;
      if n !in d || d[n].start.None? then r.value == d
      else
        n in r.value && r.value - {n} == d - {n} &&
        r.value[n].totalTime == Some(Num(d[n].totalTime) + (t - d[n].start.value)) &&
        Advanced(d[n].lastSeen, r.value[n].lastSeen, t) &&
        r.value[n].(totalTime := d[n].totalTime, lastSeen := d[n].lastSeen) == d[n]
  {
    match e
    case Join(name, stamp) =>
      (match StampTime(stamp)
       case Err(f) => Err(f)
       case Ok(t) =>
         var d := Touch(d, name);
         var p := d[name];
         var p := if Falsy(p.nLogin) then p.(nLogin := Some(0), firstLogin := Some(t)) else p;
         var p := p.(start := Some(t));
         var p := p.(nLogin := Some(p.nLogin.value + 1));
         Ok(d[name := UpdateLastSeen(p, t)]))
    case Leave(name, stamp) =>
      (match StampTime(stamp)
       case Err(f) => Err(f)
       case Ok(t) =>
         if name !in d || d[name].start.None? then Ok(d)
         else
           var p := d[name];
           var p := p.(totalTime := Some(Num(p.totalTime) + (t - p.start.value)));
           Ok(d[name := UpdateLastSeen(p, t)]))
    case _ => Ok(d)
  }

  function Logins(files: seq<LogFile>, d: Players): Result<Players> {
    RunFiles(KeepState, LoginStep, d, files)
  }

  method AnalyzeLogins(files: seq<LogFile>, d: Players) returns (r: Result<Players>)
    ensures r == Logins(files, d)
  {
    r := Pass(KeepState, LoginStep, d, files);
  }

  function JoinsOf(evs: seq<Event>, n: string): nat {
    if evs == [] then 0
    else JoinsOf(evs[..|evs| - 1], n) + (if evs[|evs| - 1].Join? && evs[|evs| - 1].name == n then 1 else 0)
  }

  function LoginCount(d: Players, n: string): int {
    if n in d then Num(d[n].nLogin) else 0
  }

  /** The join and leave lines carry timestamps datetime() accepts. */
  predicate LoginStampsValid(evs: seq<Event>) {
    forall i | 0 <= i < |evs| :: (evs[i].Join? || evs[i].Leave?) ==> StampTime(evs[i].stamp).Ok?
  }

  /** The logins pass raises exactly when a join or leave line carries an impossible timestamp. */
  lemma {:induction false} LoginsFailIff(d: Players, evs: seq<Event>)
    ensures RunEvents(LoginStep, d, evs).Ok? <==> LoginStampsValid(evs)
    decreases |evs|
  {
    if evs != [] {
      var init, e := evs[..|evs| - 1], evs[|evs| - 1];
      LoginsFailIff(d, init);
      if RunEvents(LoginStep, d, init).Ok? {
        assert RunEvents(LoginStep, d, evs) == LoginStep(RunEvents(LoginStep, d, init).value, e);
      }
      assert LoginStampsValid(evs) <==>
        LoginStampsValid(init) && ((e.Join? || e.Leave?) ==> StampTime(e.stamp).Ok?) by {
        assert forall i | 0 <= i < |init| :: init[i] == evs[i];
      }
    }
  }

  /** After the pass every player's nLogin is what it was plus the number of its join lines. */
  lemma {:induction false} LoginsCountJoins(d: Players, evs: seq<Event>, d': Players)
    requires RunEvents(LoginStep, d, evs) == Ok(d')
    ensures forall n :: LoginCount(d', n) == LoginCount(d, n) + JoinsOf(evs, n)
    decreases |evs|
  {
    if evs != [] {
      var dm := RunEvents(LoginStep, d, evs[..|evs| - 1]).value;
      LoginsCountJoins(d, evs[..|evs| - 1], dm);
      var e := evs[|evs| - 1];
      forall n ensures LoginCount(d', n) == LoginCount(dm, n) + (if e.Join? && e.name == n then 1 else 0) {
        if (e.Join? || e.Leave?) && n != e.name {
          assert n in d' <==> n in dm;
          if n in dm {
            assert d'[n] == (d' - {e.name})[n];
          }
        }
      }
    }
  }

  /** The position of a player's first join line. */
  function FirstJoin(evs: seq<Event>, n: string): (i: nat)
    requires JoinsOf(evs, n) > 0
    ensures i < |evs| && evs[i].Join? && evs[i].name == n && JoinsOf(evs[..i], n) == 0
  {
    if JoinsOf(evs[..|evs| - 1], n) > 0 then
      var i := FirstJoin(evs[..|evs| - 1], n);
      assert evs[..|evs| - 1][..i] == evs[..i];
      i
    else
      assert evs[..|evs| - 1] == evs[..|evs| - 1];
      |evs| - 1
  }

  /** For a player without logins before the pass, firstLogin ends up as the time of the
      first join line: later joins never overwrite it. */
  lemma {:induction false} FirstLoginIsFirstJoin(d: Players, evs: seq<Event>, d': Players, n: string)
    requires RunEvents(LoginStep, d, evs) == Ok(d')
    requires n !in d || Falsy(d[n].nLogin)
    requires JoinsOf(evs, n) > 0
    ensures n in d' && StampTime(evs[FirstJoin(evs, n)].stamp).Ok?
    ensures d'[n].firstLogin == Some(StampTime(evs[FirstJoin(evs, n)].stamp).value)
    decreases |evs|
  {
    var init := evs[..|evs| - 1];
    var dm := RunEvents(LoginStep, d, init).value;
    var e := evs[|evs| - 1];
    LoginsCountJoins(d, init, dm);
    assert LoginCount(d', n) == LoginCount(dm, n) + (if e.Join? && e.name == n then 1 else 0) by {
      LoginsCountJoins(d, evs, d');
    }
    if JoinsOf(init, n) > 0 {
      FirstLoginIsFirstJoin(d, init, dm, n);
      assert !Falsy(dm[n].nLogin);
      var i := FirstJoin(init, n);
      assert FirstJoin(evs, n) == i && evs[i] == init[i];
      if (e.Join? || e.Leave?) && e.name != n {
        assert d'[n] == (d' - {e.name})[n];
      }
    } else {
      assert e.Join? && e.name == n;
      assert n !in dm || Falsy(dm[n].nLogin);
    }
  }

  /** A leave after a recorded start adds the time since it and keeps the start. */
  lemma LeaveAfterStart(d: Players, n: string, s: seq<string>)
    requires n in d && d[n].start.Some? && StampTime(s).Ok?
    ensures var r := LoginStep(d, Leave(n, s));
      r.Ok? && n in r.value && r.value[n].start == d[n].start &&
      r.value[n].totalTime == Some(Num(d[n].totalTime) + (StampTime(s).value - d[n].start.value)) &&
      r.value[n].nLogin == d[n].nLogin && r.value[n].firstLogin == d[n].firstLogin
  {
    var r := LoginStep(d, Leave(n, s)).value;
    assert r[n].(totalTime := d[n].totalTime, lastSeen := d[n].lastSeen) == d[n];
  }

  /** A first join records one login, the join time as firstLogin and start, and no time. */
  lemma JoinFresh(d: Players, n: string, s: seq<string>)
    requires n !in d && StampTime(s).Ok?
    ensures var r := LoginStep(d, Join(n, s));
      r.Ok? && n in r.value && r.value[n].nLogin == Some(1) &&
      r.value[n].firstLogin == Some(StampTime(s).value) &&
      r.value[n].start == Some(StampTime(s).value) && r.value[n].totalTime == None
  {
    assert RecOf(d, n) == EmptyRec;
  }

  /** A join at t1 and a leave at t2 for a new player give one login, firstLogin t1 and
      totalTime t2 - t1. */
  lemma JoinThenLeave(d: Players, n: string, s1: seq<string>, s2: seq<string>)
    requires n !in d && StampTime(s1).Ok? && StampTime(s2).Ok?
    ensures var r := LoginStep(d, Join(n, s1));
      r.Ok? && var r' := LoginStep(r.value, Leave(n, s2));
      r'.Ok? && n in r'.value && r'.value[n].nLogin == Some(1) &&
      r'.value[n].firstLogin == Some(StampTime(s1).value) &&
      r'.value[n].totalTime == Some(StampTime(s2).value - StampTime(s1).value) &&
      r'.value[n].start == Some(StampTime(s1).value)
  {
    JoinFresh(d, n, s1);
    var d1 := LoginStep(d, Join(n, s1)).value;
    LeaveAfterStart(d1, n, s2);
  }

  /** `start` is never cleared, so a second leave after the same start adds the time since
      that start again. */
  lemma RepeatedLeaveCountsTwice(d: Players, n: string, s2: seq<string>, s3: seq<string>)
    requires n in d && d[n].start.Some? && StampTime(s2).Ok? && StampTime(s3).Ok?
    ensures var r := LoginStep(d, Leave(n, s2));
      r.Ok? && var r' := LoginStep(r.value, Leave(n, s3));
      r'.Ok? && n in r'.value && r'.value[n].start == d[n].start &&
      var start := d[n].start.value;
      r'.value[n].totalTime ==
        Some(Num(d[n].totalTime) + (StampTime(s2).value - start) + (StampTime(s3).value - start))
  {
    LeaveAfterStart(d, n, s2);
    LeaveAfterStart(LoginStep(d, Leave(n, s2)).value, n, s3);
  }

  // ---------------------------------------------------------------------------
  // analyzeChatMessages

  function ChatStep(d: Players, e: Event): (r: Result<Players>)
    ensures e.Chat? ==> (r.Ok? <==> StampTime(e.stamp).Ok?)
    ensures !e.Chat? ==> r == Ok(d)
    ensures e.Chat? && r.Ok? ==>
      var t, n, before := StampTime(e.stamp).value, e.name, RecOf(d, e.name);
      n in r.value && r.value - {n} == d - {n} &&
      r.value[n].nMsg == Some(Num(before.nMsg) + 1) &&
      Advanced(before.lastSeen, r.value[n].lastSeen, t) &&
      r.value[n].(nMsg := before.nMsg, lastSeen := before.lastSeen) == before
  {
    match e
    case Chat(name, stamp) =>
      var d := Touch(d, name);
      var p := d[name];
      var p := p.(nMsg := Some(Num(p.nMsg) + 1));
      (match StampTime(stamp)
       case Err(f) => Err(f)
       case Ok(t) => Ok(d[name := UpdateLastSeen(p, t)]))
    case _ => Ok(d)
  }

  function ChatMessages(files: seq<LogFile>, d: Players): Result<Players> {
    RunFiles(KeepState, ChatStep, d, files)
  }

  method AnalyzeChatMessages(files: seq<LogFile>, d: Players) returns (r: Result<Players>)
    ensures r == ChatMessages(files, d)
  {
    r := Pass(KeepState, ChatStep, d, files);
  }

  function ChatsOf(evs: seq<Event>, n: string): nat {
    if evs == [] then 0
    else ChatsOf(evs[..|evs| - 1], n) + (if evs[|evs| - 1].Chat? && evs[|evs| - 1].name == n then 1 else 0)
  }

  function MsgCount(d: Players, n: string): int {
    if n in d then Num(d[n].nMsg) else 0
  }

  /** Each chat line raises its sender's nMsg by exactly one. */
  lemma {:induction false} ChatCountsMessages(d: Players, evs: seq<Event>, d': Players)
    requires RunEvents(ChatStep, d, evs) == Ok(d')
    ensures forall n :: MsgCount(d', n) == MsgCount(d, n) + ChatsOf(evs, n)
    decreases |evs|
  {
    if evs != [] {
      var dm := RunEvents(ChatStep, d, evs[..|evs| - 1]).value;
      ChatCountsMessages(d, evs[..|evs| - 1], dm);
      var e := evs[|evs| - 1];
      forall n ensures MsgCount(d', n) == MsgCount(dm, n) + (if e.Chat? && e.name == n then 1 else 0) {
        if e.Chat? && n != e.name {
          assert n in d' <==> n in dm;
          if n in dm {
            assert d'[n] == (d' - {e.name})[n];
          }
        }
      }
    }
  }

  /** One chat step keeps every player and never moves a lastSeen back. */
  lemma ChatStepKeepsLastSeen(d: Players, e: Event, d': Players)
    requires ChatStep(d, e) == Ok(d')
    ensures forall n | n in d ::
      n in d' && (d[n].lastSeen.Some? ==> d'[n].lastSeen.Some? && d[n].lastSeen.value <= d'[n].lastSeen.value)
  {
    forall n | n in d
      ensures n in d' && (d[n].lastSeen.Some? ==> d'[n].lastSeen.Some? && d[n].lastSeen.value <= d'[n].lastSeen.value)
    {
      if e.Chat? && n != e.name {
        assert d'[n] == (d' - {e.name})[n];
      }
    }
  }

  /** lastSeen after the chat pass is no earlier than any of the player's chat lines and
      no earlier than it was before. */
  lemma {:induction false} ChatLastSeenBound(d: Players, evs: seq<Event>, d': Players)
    requires RunEvents(ChatStep, d, evs) == Ok(d')
    ensures forall n | n in d && d[n].lastSeen.Some? ::
      n in d' && d'[n].lastSeen.Some? && d[n].lastSeen.value <= d'[n].lastSeen.value
    ensures forall i | 0 <= i < |evs| && evs[i].Chat? ::
      evs[i].name in d' && StampTime(evs[i].stamp).Ok? && d'[evs[i].name].lastSeen.Some? &&
      StampTime(evs[i].stamp).value <= d'[evs[i].name].lastSeen.value
    decreases |evs|
  {
    if evs != [] {
      var init := evs[..|evs| - 1];
      var dm := RunEvents(ChatStep, d, init).value;
      ChatLastSeenBound(d, init, dm);
      ChatStepKeepsLastSeen(dm, evs[|evs| - 1], d');
      forall i | 0 <= i < |evs| && evs[i].Chat?
        ensures evs[i].name in d' && StampTime(evs[i].stamp).Ok? && d'[evs[i].name].lastSeen.Some? &&
                StampTime(evs[i].stamp).value <= d'[evs[i].name].lastSeen.value
      {
        if i < |evs| - 1 {
          assert evs[i] == init[i];
        }
      }
    }
  }

  // ---------------------------------------------------------------------------
  // analyzePlanes

  predicate NoDuplicates(ps: seq<string>) {
    forall i, j | 0 <= i < j < |ps| :: ps[i] != ps[j]
  }

  /** `if not plane in planes: planes.append(plane)`. */
  function AddPlane(ps: seq<string>, plane: string): (r: seq<string>)
    ensures ps <= r && plane in r
    ensures forall x :: x in r <==> x in ps || x == plane
    ensures plane in ps ==> r == ps
    ensures NoDuplicates(ps) ==> NoDuplicates(r)
  {
    if plane in ps then ps else ps + [plane]
  }

  function PlanesOf(d: Players, n: string): seq<string> {
    if n in d && d[n].planes.Some? then d[n].planes.value else []
  }

  function PlaneStep(d: Players, e: Event): (r: Result<Players>)
    ensures r.Ok?
    ensures !e.Shift? ==> r.value == d
    ensures e.Shift? ==>
      var n := e.name;
      n in r.value && r.value - {n} == d - {n} &&
      r.value[n].planes == Some(AddPlane(PlanesOf(d, n), e.plane)) &&
      r.value[n].(planes := RecOf(d, n).planes) == RecOf(d, n)
  {
    match e
    case Shift(name, plane) =>
      var d := Touch(d, name);
      var p := d[name];
      var ps := if p.planes.None? then [] else p.planes.value;
      Ok(d[name := p.(planes := Some(AddPlane(ps, plane)))])
    case _ => Ok(d)
  }

  function Planes(files: seq<LogFile>, d: Players): Result<Players> {
    RunFiles(KeepState, PlaneStep, d, files)
  }

  method AnalyzePlanes(files: seq<LogFile>, d: Players) returns (r: Result<Players>)
    ensures r == Planes(files, d)
  {
    r := Pass(KeepState, PlaneStep, d, files);
  }

  /** The planes a player shifted to, in the order of the lines. */
  function ShiftsOf(evs: seq<Event>, n: string): seq<string> {
    if evs == [] then []
    else ShiftsOf(evs[..|evs| - 1], n) + (if evs[|evs| - 1].Shift? && evs[|evs| - 1].name == n then [evs[|evs| - 1].plane] else [])
  }

  /** The planes `xs` added one by one to `ps`, each only on its first visit. */
  function AddAll(ps: seq<string>, xs: seq<string>): seq<string> {
    if xs == [] then ps else AddPlane(AddAll(ps, xs[..|xs| - 1]), xs[|xs| - 1])
  }

  /** The planes pass never fails; each player's list is the old one with the planes of the
      player's shift lines added in the order of the lines, each on its first visit only.
      So the old list stays a prefix, the members are exactly the old ones and the shifts,
      and no plane appears twice. */
  lemma {:induction false} PlanesAccumulate(d: Players, evs: seq<Event>)
    ensures RunEvents(PlaneStep, d, evs).Ok?
    ensures var d' := RunEvents(PlaneStep, d, evs).value;
      forall n ::
        PlanesOf(d', n) == AddAll(PlanesOf(d, n), ShiftsOf(evs, n)) &&
        PlanesOf(d, n) <= PlanesOf(d', n) &&
        (forall x :: x in PlanesOf(d', n) <==> x in PlanesOf(d, n) || x in ShiftsOf(evs, n)) &&
        (NoDuplicates(PlanesOf(d, n)) ==> NoDuplicates(PlanesOf(d', n)))
    decreases |evs|
  {
    if evs != [] {
      var init := evs[..|evs| - 1];
      PlanesAccumulate(d, init);
      var dm := RunEvents(PlaneStep, d, init).value;
      var d' := RunEvents(PlaneStep, d, evs).value;
      var e := evs[|evs| - 1];
      forall n ensures
        PlanesOf(d', n) == AddAll(PlanesOf(d, n), ShiftsOf(evs, n)) &&
        PlanesOf(d, n) <= PlanesOf(d', n) &&
        (forall x :: x in PlanesOf(d', n) <==> x in PlanesOf(d, n) || x in ShiftsOf(evs, n)) &&
        (NoDuplicates(PlanesOf(d, n)) ==> NoDuplicates(PlanesOf(d', n)))
      {
        if e.Shift? && n == e.name {
          assert PlanesOf(d', n) == AddPlane(PlanesOf(dm, n), e.plane);
          assert ShiftsOf(evs, n) == ShiftsOf(init, n) + [e.plane];
          assert ShiftsOf(evs, n)[..|ShiftsOf(evs, n)| - 1] == ShiftsOf(init, n);
        } else {
          assert ShiftsOf(evs, n) == ShiftsOf(init, n);
          if e.Shift? && n in d' {
            assert d'[n] == (d' - {e.name})[n];
          }
          assert PlanesOf(d', n) == PlanesOf(dm, n);
        }
      }
    }
  }

  // ---------------------------------------------------------------------------
  // analyzeMapgen

  /** The pass's variables: `d`, the per-day `chunkGenerations` buckets, and `name`, the
      player of the latest blame line (unassigned until the first one). */
  datatype MapgenState = MapgenState(d: Players, buckets: map<Date, int>, blamed: Option<string>)

  function ChunkCount(d: Players, n: string): int {
    if n in d then Num(d[n].chunks) else 0
  }

  function Bucket(buckets: map<Date, int>, day: Date): int {
    if day in buckets then buckets[day] else 0
  }

  /** Opening a file: its nominal date from the name, and that day's bucket set to 0. */
  function MapgenOpen(s: MapgenState, path: string): (r: Result<MapgenState>)
    ensures r.Ok? <==> FileDate(path).Ok?
    ensures r.Ok? ==> r.value == s.(buckets := s.buckets[FileDate(path).value := 0])
  {
    match FileDate(path)
    case Err(f) => Err(f)
    case Ok(day) => Ok(s.(buckets := s.buckets[day := 0]))
  }

  /** A blame line: its chunks go to the named player and to the bucket of the line's own date. */
  function BlameStep(s: MapgenState, name: string, chunks: string, stamp: seq<string>): (r: Result<MapgenState>)
    ensures r.Ok? <==> ParseInt(chunks).Ok? && DateFromGroups(stamp).Ok?
    ensures r.Ok? ==>
      var k, day := ParseInt(chunks).value, DateFromGroups(stamp).value;
      name in r.value.d && r.value.d - {name} == s.d - {name} &&
      r.value.d[name].chunks == Some(ChunkCount(s.d, name) + k) &&
      r.value.d[name].(chunks := RecOf(s.d, name).chunks) == RecOf(s.d, name) &&
      r.value.buckets == s.buckets[day := Bucket(s.buckets, day) + k] &&
      r.value.blamed == Some(name)
  {
    match ParseInt(chunks)
    case Err(f) => Err(f)
    case Ok(k) =>
      var d := Touch(s.d, name);
      var p := d[name];
      var d := d[name := p.(chunks := Some(Num(p.chunks) + k))];
      match DateFromGroups(stamp)
      case Err(f) => Err(f)
      case Ok(day) => Ok(MapgenState(d, s.buckets[day := Bucket(s.buckets, day) + k], Some(name)))
  }

  /** An anonymous mapgen line whose chunk count is read from `text`: the count goes to the
      player of the latest blame line and to the existing bucket of the line's date. */
  function AnonStep(s: MapgenState, text: string, stamp: seq<string>): (r: Result<MapgenState>)
    ensures r.Ok? <==>
      ParseInt(text).Ok? && s.blamed.Some? && s.blamed.value in s.d && s.d[s.blamed.value].chunks.Some? &&
      DateFromGroups(stamp).Ok? && DateFromGroups(stamp).value in s.buckets
    ensures ParseInt(text).Ok? && s.blamed.None? ==> r == Err(UnboundLocalError)
    ensures (ParseInt(text).Ok? && s.blamed.Some? &&
             (s.blamed.value !in s.d || s.d[s.blamed.value].chunks.None?)) ==> r == Err(KeyError)
    ensures (ParseInt(text).Ok? && s.blamed.Some? && s.blamed.value in s.d && s.d[s.blamed.value].chunks.Some? &&
             DateFromGroups(stamp).Ok? && DateFromGroups(stamp).value !in s.buckets) ==> r == Err(KeyError)
    ensures (ParseInt(text).Ok? && s.blamed.Some? && s.blamed.value in s.d && s.d[s.blamed.value].chunks.Some? &&
             DateFromGroups(stamp).Err?) ==> r == Err(DateFromGroups(stamp).failure)
    ensures ParseInt(text).Err? ==> r == Err(ValueError)
    ensures r.Ok? ==>
      var k, day, n := ParseInt(text).value, DateFromGroups(stamp).value, s.blamed.value;
      r.value.d == s.d[n := s.d[n].(chunks := Some(s.d[n].chunks.value + k))] &&
      r.value.buckets == s.buckets[day := s.buckets[day] + k] && r.value.blamed == s.blamed
  {
    match ParseInt(text)
    case Err(f) => Err(f)
    case Ok(k) =>
      if s.blamed.None? then Err(UnboundLocalError)
      else
        var n := s.blamed.value;
        if n !in s.d || s.d[n].chunks.None? then Err(KeyError)
        else
          var d := s.d[n := s.d[n].(chunks := Some(s.d[n].chunks.value + k))];
          match DateFromGroups(stamp)
          case Err(f) => Err(f)
          case Ok(day) =>
            if day !in s.buckets then Err(KeyError)
            else Ok(MapgenState(d, s.buckets[day := s.buckets[day] + k], s.blamed))
  }

  /** The two groups the anonymous pattern `(Chunks: (\d*).)$` captures after the date:
      group 6 is the whole `Chunks: N.` text, group 7 the digits alone. */
  function AnonGroups(chunks: string, tail: char): seq<string> {
    ["Chunks: " + chunks + [tail], chunks]
  }

  /** One line of analyzeMapgen, with the anonymous count read from group 7, the digits. */
  function MapgenStep(s: MapgenState, e: Event): (r: Result<MapgenState>)
    ensures !(e.Blame? || e.Anon?) ==> r == Ok(s)
  {
    match e
    case Blame(name, chunks, stamp) => BlameStep(s, name, chunks, stamp)
    case Anon(chunks, tail, stamp) => AnonStep(s, AnonGroups(chunks, tail)[1], stamp)
    case _ => Ok(s)
  }

  /** One line of analyzeMapgen as written: `int(g[6])` reads group 6, `Chunks: N.`. */
  function MapgenStepAsWritten(s: MapgenState, e: Event): Result<MapgenState>
  {
    match e
    case Anon(chunks, tail, stamp) => AnonStep(s, AnonGroups(chunks, tail)[0], stamp)
    case _ => MapgenStep(s, e)
  }

  /** As written, every anonymous mapgen line raises ValueError: `int("Chunks: 12.")`. */
  lemma AnonAsWrittenRaises(s: MapgenState, chunks: string, tail: char, stamp: seq<string>)
    ensures MapgenStepAsWritten(s, Anon(chunks, tail, stamp)) == Err(ValueError)
  {
    var text := AnonGroups(chunks, tail)[0];
    assert text[0] == 'C' && !IsDigit(text[0]);
  }

  /** With group 7, an anonymous line after a blame line credits its digits to that player
      and to its day's bucket, provided the bucket exists. */
  lemma AnonCredits(s: MapgenState, n: string, chunks: string, tail: char, stamp: seq<string>)
    requires s.blamed == Some(n) && n in s.d && s.d[n].chunks.Some?
    requires ParseInt(chunks).Ok? && DateFromGroups(stamp).Ok? && DateFromGroups(stamp).value in s.buckets
    ensures var r := MapgenStep(s, Anon(chunks, tail, stamp));
      var k, day := ParseInt(chunks).value, DateFromGroups(stamp).value;
      r.Ok? && ChunkCount(r.value.d, n) == ChunkCount(s.d, n) + k &&
      Bucket(r.value.buckets, day) == Bucket(s.buckets, day) + k
  {
  }

  /** Mapgen's own consistency: the latest blamed player has a chunks entry. */
  predicate BlamedHasChunks(s: MapgenState) {
    s.blamed.Some? ==> s.blamed.value in s.d && s.d[s.blamed.value].chunks.Some?
  }

  /** Within a file, lines keep every bucket and every player and keep BlamedHasChunks, so an
      anonymous line can fail only for want of a blame line or of its day's bucket. */
  lemma {:induction false} MapgenLinesKeep(s: MapgenState, evs: seq<Event>)
    requires BlamedHasChunks(s)
    requires RunEvents(MapgenStep, s, evs).Ok?
    ensures var s' := RunEvents(MapgenStep, s, evs).value;
      BlamedHasChunks(s') && s.buckets.Keys <= s'.buckets.Keys && s.d.Keys <= s'.d.Keys
    decreases |evs|
  {
    if evs != [] {
      MapgenLinesKeep(s, evs[..|evs| - 1]);
    }
  }

  function Mapgen(files: seq<LogFile>, d: Players): Result<MapgenState> {
    RunFiles(MapgenOpen, MapgenStep, MapgenState(d, map[], None), files)
  }

  /** After a successful mapgen pass every file's nominal date has a bucket. */
  lemma {:induction false} MapgenBucketsCoverFiles(s: MapgenState, files: seq<LogFile>)
    requires BlamedHasChunks(s)
    requires RunFiles(MapgenOpen, MapgenStep, s, files).Ok?
    ensures var s' := RunFiles(MapgenOpen, MapgenStep, s, files).value;
      BlamedHasChunks(s') && s.buckets.Keys <= s'.buckets.Keys &&
      forall i | 0 <= i < |files| :: FileDate(files[i].path).Ok? && FileDate(files[i].path).value in s'.buckets
    decreases |files|
  {
    if files != [] {
      var init := files[..|files| - 1];
      MapgenBucketsCoverFiles(s, init);
      var sm := RunFiles(MapgenOpen, MapgenStep, s, init).value;
      var f := files[|files| - 1];
      var first := MapgenOpen(sm, f.path).value;
      var s' := RunFiles(MapgenOpen, MapgenStep, s, files).value;
      assert s' == RunEvents(MapgenStep, first, f.lines).value;
      assert FileDate(f.path).value in first.buckets;
      MapgenLinesKeep(first, f.lines);
      forall i | 0 <= i < |files|
        ensures FileDate(files[i].path).Ok? && FileDate(files[i].path).value in s'.buckets
      {
        if i < |files| - 1 {
          assert files[i] == init[i];
        }
      }
    }
  }

  method AnalyzeMapgen(files: seq<LogFile>, d: Players) returns (r: Result<(Players, map<Date, int>)>)
    ensures Mapgen(files, d).Err? ==> r == Err(Mapgen(files, d).failure)
    ensures Mapgen(files, d).Ok? ==> r == Ok((Mapgen(files, d).value.d, Mapgen(files, d).value.buckets))
  {
    var s := Pass(MapgenOpen, MapgenStep, MapgenState(d, map[], None), files);
    if s.Err? {
      return Err(s.failure);
    }
    r := Ok((s.value.d, s.value.buckets));
  }
}
