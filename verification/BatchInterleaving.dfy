/**
 Any number of batch requests against one library, taken apart into the steps that the
 database orders: lock, check, bump, save, commit or rollback. The lock is held from
 before the check until the transaction ends.
 */
module BatchInterleaving {
  import opened Common
  import BatchWrite

  type Id = nat

  /** A request: its headers, what it sends, and how its route saves one object. */
  datatype Request<!D> = Request(
    expected: Option<int>,
    required: bool,
    token: Option<string>,
    payloads: seq<BatchWrite.Payload>,
    save: BatchWrite.Saver<D>)

  /** Where a request is; while it saves, the data as its own transaction sees it. */
  datatype Phase<+D> =
    | Waiting
    | Locked
    | Checked
    | Saving(version: nat, data: D, saved: nat, written: bool)
    | Done

  /** A batch that committed, and the library version it made. */
  datatype Commit = Commit(id: Id, version: nat)

  /** The library as committed, and what each request is doing. */
  datatype System<D> = System(
    version: nat,
    data: D,
    tokens: set<string>,
    phases: map<Id, Phase<D>>,
    holder: Option<Id>,
    log: seq<Commit>)

  /** A step of request `id`. */
  datatype Event =
    | Lock(id: Id)
    | Check(id: Id)
    | Bump(id: Id)
    | SaveNext(id: Id)
    | Finish(id: Id)
    | Crash(id: Id)

  predicate Passes<D>(s: System<D>, request: Request<D>) {
    && (request.expected.None? ==> !request.required)
    && (request.expected.Some? ==> s.version <= request.expected.value)
    && (request.token.Some? ==> request.token.value !in s.tokens)
  }

  function Released<D>(s: System<D>, id: Id): System<D> {
    s.(holder := None, phases := s.phases[id := Done])
  }

  /** One more object saved on top of those written before it, unless saving it crashes. */
  function Saved<D>(request: Request<D>, phase: Phase<D>): Option<Phase<D>>
    requires phase.Saving? && phase.saved < |request.payloads|
  {
    match request.save(phase.data, request.payloads[phase.saved], phase.version)
    case Written(data, _) => Some(Saving(phase.version, data, phase.saved + 1, true))
    case Crashed => None
    case _ => Some(phase.(saved := phase.saved + 1))
  }

  /** The system after one step, if the step can happen. */
  function Step<D>(requests: map<Id, Request<D>>, s: System<D>, event: Event): Option<System<D>> {
    var id := event.id;
    if id !in requests || id !in s.phases then None
    else
      var phase, request := s.phases[id], requests[id];
      match event
      case Lock(_) =>
        if !phase.Waiting? || s.holder != None then None
        else Some(s.(holder := Some(id), phases := s.phases[id := Locked]))
      case Check(_) =>
        if !phase.Locked? then None
        else if Passes(s, request) then Some(s.(phases := s.phases[id := Checked]))
        else Some(Released(s, id))
      case Bump(_) =>
        if !phase.Checked? then None
        else Some(s.(phases := s.phases[id := Saving(s.version + 1, s.data, 0, false)]))
      case SaveNext(_) =>
        if !phase.Saving? || phase.saved >= |request.payloads| || Saved(request, phase).None? then None
        else Some(s.(phases := s.phases[id := Saved(request, phase).value]))
      case Finish(_) =>
        if !phase.Saving? || phase.saved < |request.payloads| then None
        else if phase.written then
          Some(Released(s, id).(version := phase.version,
                                data := phase.data,
                                tokens := s.tokens + (if request.token.Some? then {request.token.value} else {}),
                                log := s.log + [Commit(id, phase.version)]))
        else Some(Released(s, id))
      case Crash(_) =>
        if !Active(phase) then None else Some(Released(s, id))
  }

  function Run<D>(requests: map<Id, Request<D>>, s: System<D>, events: seq<Event>): Option<System<D>>
    decreases |events|
  {
    if events == [] then Some(s)
    else match Step(requests, s, events[0])
         case None => None
         case Some(t) => Run(requests, t, events[1..])
  }

  predicate Initial<D>(requests: map<Id, Request<D>>, s: System<D>) {
    && s.phases.Keys == requests.Keys && s.holder == None && s.log == []
    && forall id :: id in s.phases ==> s.phases[id].Waiting?
  }

  // -------------------------------------------------------------- invariant

  predicate Active<D>(phase: Phase<D>) {
    !phase.Waiting? && !phase.Done?
  }

  predicate Committed(log: seq<Commit>, id: Id) {
    exists i :: 0 <= i < |log| && log[i].id == id
  }

  /** The data after the first `n` committed batches, each applied to what the one before it left. */
  function Replay<D>(requests: map<Id, Request<D>>, start: System<D>, log: seq<Commit>, n: nat): D
    requires n <= |log|
  {
    if n == 0 then start.data
    else
      var before := Replay(requests, start, log, n - 1);
      if log[n - 1].id !in requests then before
      else
        var request := requests[log[n - 1].id];
        BatchWrite.After(request.save, before, request.payloads, start.version + n, |request.payloads|)
  }

  lemma {:induction false} ReplayPrefix<D>(requests: map<Id, Request<D>>, start: System<D>, log: seq<Commit>,
                                           more: seq<Commit>, n: nat)
    requires n <= |log|
    ensures Replay(requests, start, log + more, n) == Replay(requests, start, log, n)
    decreases n
  {
    if n > 0 {
      ReplayPrefix(requests, start, log, more, n - 1);
    }
  }

  /**
   Batch `i` took the next version, over a library no further than the version its caller
   stated, if one was stated, as it must be where required, and its token was not used yet.
   */
  predicate Entitled<D>(requests: map<Id, Request<D>>, start: System<D>, log: seq<Commit>, i: nat)
    requires i < |log|
  {
    && log[i].version == start.version + i + 1
    && log[i].id in requests
    && var request := requests[log[i].id];
       && (request.expected.Some? ==> start.version + i <= request.expected.value)
       && (request.expected.None? ==> !request.required)
       && (request.token.Some? ==> request.token.value !in start.tokens)
  }

  /** Over what the batches before it left, every object of batch `i` was saved and one was written. */
  ghost predicate Wrote<D>(requests: map<Id, Request<D>>, start: System<D>, log: seq<Commit>, i: nat)
    requires i < |log|
  {
    && log[i].id in requests
    && var request, before := requests[log[i].id], Replay(requests, start, log, i);
       && BatchWrite.Completes(request.save, before, request.payloads, start.version + i + 1)
       && BatchWrite.AnyWritten(request.save, before, request.payloads, start.version + i + 1)
  }

  ghost predicate EntriesSound<D>(requests: map<Id, Request<D>>, start: System<D>, log: seq<Commit>) {
    && (forall i :: 0 <= i < |log| ==> Entitled(requests, start, log, i) && Wrote(requests, start, log, i))
    && (forall i, j :: 0 <= i < j < |log| ==> log[i].id != log[j].id)
  }

  function TokenOf<D>(requests: map<Id, Request<D>>, id: Id): Option<string> {
    if id in requests then requests[id].token else None
  }

  predicate TokensApart<D>(requests: map<Id, Request<D>>, log: seq<Commit>) {
    forall i, j :: 0 <= i < j < |log| && TokenOf(requests, log[i].id).Some? ==>
      TokenOf(requests, log[i].id) != TokenOf(requests, log[j].id)
  }

  predicate TokensSound<D>(requests: map<Id, Request<D>>, s: System<D>) {
    && (forall i :: 0 <= i < |s.log| && TokenOf(requests, s.log[i].id).Some? ==>
          TokenOf(requests, s.log[i].id).value in s.tokens)
    && TokensApart(requests, s.log)
  }

  predicate OneHolder<D>(s: System<D>) {
    forall id :: id in s.phases ==> (Active(s.phases[id]) <==> s.holder == Some(id))
  }

  predicate PhasesSound<D>(requests: map<Id, Request<D>>, s: System<D>) {
    && s.phases.Keys == requests.Keys && OneHolder(s)
    && (forall id :: id in s.phases && Committed(s.log, id) ==> s.phases[id].Done?)
    && (forall id :: id in s.phases && (s.phases[id].Checked? || s.phases[id].Saving?) ==>
          Passes(s, requests[id]))
  }

  /** What the transaction that makes version `next` sees: the committed data and what it wrote so far. */
  ghost predicate Progress<D>(request: Request<D>, next: nat, data: D, phase: Phase<D>) {
    phase.Saving? ==>
      && phase.version == next && phase.saved <= |request.payloads|
      && phase.data == BatchWrite.After(request.save, data, request.payloads, next, phase.saved)
      && (forall i: nat :: i < phase.saved ==>
            !BatchWrite.Verdict(request.save, data, request.payloads, next, i).Crashed?)
      && (phase.written <==>
            exists i: nat ::
              && i < phase.saved
              && BatchWrite.Verdict(request.save, data, request.payloads, next, i).Written?)
  }

  ghost predicate AllProgress<D>(requests: map<Id, Request<D>>, s: System<D>) {
    forall id :: id in s.phases && id in requests ==>
      Progress(requests[id], s.version + 1, s.data, s.phases[id])
  }

  ghost predicate DataSound<D>(requests: map<Id, Request<D>>, start: System<D>, s: System<D>) {
    && s.data == Replay(requests, start, s.log, |s.log|)
    && AllProgress(requests, s)
  }

  ghost predicate Sound<D>(requests: map<Id, Request<D>>, start: System<D>, s: System<D>) {
    && s.version == start.version + |s.log| && start.tokens <= s.tokens
    && EntriesSound(requests, start, s.log)
    && TokensSound(requests, s)
    && PhasesSound(requests, s)
    && DataSound(requests, start, s)
  }

  lemma InitialSound<D>(requests: map<Id, Request<D>>, s: System<D>)
    requires Initial(requests, s)
    ensures Sound(requests, s, s)
  {
  }

  /** A step of a request that commits. */
  ghost predicate Commits<D>(s: System<D>, event: Event) {
    event.Finish? && event.id in s.phases && s.phases[event.id].Saving? && s.phases[event.id].written
  }

  lemma FinishKeepsEntries<D>(requests: map<Id, Request<D>>, start: System<D>, s: System<D>, id: Id, t: System<D>)
    requires Sound(requests, start, s) && Step(requests, s, Finish(id)) == Some(t)
    requires Commits(s, Finish(id))
    ensures t.version == start.version + |t.log| && start.tokens <= t.tokens && EntriesSound(requests, start, t.log)
    ensures t.data == Replay(requests, start, t.log, |t.log|)
  {
    hide TokensSound, BatchWrite.Verdict, BatchWrite.After;
    assert !Committed(s.log, id);
    forall i: nat | i <= |s.log| ensures Replay(requests, start, t.log, i) == Replay(requests, start, s.log, i) {
      ReplayPrefix(requests, start, s.log, [Commit(id, s.phases[id].version)], i);
    }
    assert Progress(requests[id], s.version + 1, s.data, s.phases[id]);
    forall i | 0 <= i < |t.log| ensures Entitled(requests, start, t.log, i) && Wrote(requests, start, t.log, i) {
      if i < |s.log| {
        assert Entitled(requests, start, s.log, i) && Wrote(requests, start, s.log, i);
      }
    }
  }

  /** No other request is saving when one commits, and none writes what another sees. */
  lemma StepKeepsProgress<D>(requests: map<Id, Request<D>>, s: System<D>, event: Event, t: System<D>)
    requires PhasesSound(requests, s) && AllProgress(requests, s) && Step(requests, s, event) == Some(t)
    ensures AllProgress(requests, t)
  {
    forall id | id in t.phases && id in requests
      ensures Progress(requests[id], t.version + 1, t.data, t.phases[id])
    {
      if id == event.id && event.SaveNext? {
        SavedProgresses(requests[id], s.version + 1, s.data, s.phases[id], t.phases[id]);
      } else if id != event.id {
        assert t.phases[id] == s.phases[id];
      }
    }
  }

  lemma SavedProgresses<D>(request: Request<D>, next: nat, data: D, phase: Phase<D>, after: Phase<D>)
    requires phase.Saving? && phase.saved < |request.payloads| && Progress(request, next, data, phase)
    requires Saved(request, phase) == Some(after)
    ensures Progress(request, next, data, after)
  {
    assert BatchWrite.Verdict(request.save, data, request.payloads, next, phase.saved)
        == request.save(phase.data, request.payloads[phase.saved], next);
  }

  lemma FinishKeepsTokens<D>(requests: map<Id, Request<D>>, s: System<D>, id: Id, t: System<D>)
    requires TokensSound(requests, s) && PhasesSound(requests, s)
    requires Step(requests, s, Finish(id)) == Some(t) && Commits(s, Finish(id))
    ensures TokensSound(requests, t)
  {
  }

  lemma FinishKeepsPhases<D>(requests: map<Id, Request<D>>, s: System<D>, id: Id, t: System<D>)
    requires PhasesSound(requests, s)
    requires Step(requests, s, Finish(id)) == Some(t) && Commits(s, Finish(id))
    ensures PhasesSound(requests, t)
  {
    forall k | k in t.phases && Committed(t.log, k) ensures t.phases[k].Done? {
      var i :| 0 <= i < |t.log| && t.log[i].id == k;
      if i < |s.log| {
        assert s.log[i].id == k && Committed(s.log, k);
      }
    }
  }

  lemma QuietKeepsPhases<D>(requests: map<Id, Request<D>>, s: System<D>, event: Event, t: System<D>)
    requires PhasesSound(requests, s) && Step(requests, s, event) == Some(t)
    requires !Commits(s, event)
    ensures PhasesSound(requests, t)
    ensures t.log == s.log && t.version == s.version && t.tokens == s.tokens && t.data == s.data
  {
    hide Committed;
  }

  lemma StepKeepsSound<D>(requests: map<Id, Request<D>>, start: System<D>, s: System<D>, event: Event, t: System<D>)
    requires Sound(requests, start, s) && Step(requests, s, event) == Some(t)
    ensures Sound(requests, start, t)
  {
    hide EntriesSound, PhasesSound, Progress, Replay;
    StepKeepsProgress(requests, s, event, t);
    if Commits(s, event) {
      hide TokensSound, Step;
      FinishKeepsEntries(requests, start, s, event.id, t);
      FinishKeepsTokens(requests, s, event.id, t);
      FinishKeepsPhases(requests, s, event.id, t);
    } else {
      QuietKeepsPhases(requests, s, event, t);
    }
  }

  lemma {:induction false} RunKeepsSound<D>(requests: map<Id, Request<D>>, start: System<D>, s: System<D>,
                                         events: seq<Event>, t: System<D>)
    requires Sound(requests, start, s) && Run(requests, s, events) == Some(t)
    ensures Sound(requests, start, t)
    decreases |events|
  {
    hide Sound, Step;
    if events != [] {
      StepKeepsSound(requests, start, s, events[0], Step(requests, s, events[0]).value);
      RunKeepsSound(requests, start, Step(requests, s, events[0]).value, events[1..], t);
    }
  }

  // --------------------------------------------------------------- theorems

  /**
   However the steps of any requests interleave: the committed data is the committed
   batches applied one after another in the order of the log, each to what the one before
   it left, every object of each saved and at least one written; committed versions are
   consecutive and each is one batch's; no batch, the first included, is committed over a
   version later than the one its caller stated; a write token commits once, and not if it
   was used before; and one request at a time holds the lock.
   */
  lemma EveryInterleaving<D>(requests: map<Id, Request<D>>, s: System<D>, events: seq<Event>, t: System<D>)
    requires Initial(requests, s) && Run(requests, s, events) == Some(t)
    ensures t.data == Replay(requests, s, t.log, |t.log|)
    ensures forall i :: 0 <= i < |t.log| ==> Wrote(requests, s, t.log, i)
    ensures t.version == s.version + |t.log|
    ensures forall i :: 0 <= i < |t.log| ==>
      && t.log[i].version == s.version + i + 1 && t.log[i].id in requests
      && (requests[t.log[i].id].expected.Some? ==> s.version + i <= requests[t.log[i].id].expected.value)
    ensures forall i :: 0 <= i < |t.log| ==> Entitled(requests, s, t.log, i)
    ensures forall i, j :: 0 <= i < j < |t.log| ==> t.log[i].id != t.log[j].id
    ensures TokensApart(requests, t.log)
    ensures forall a, b :: a in t.phases && b in t.phases && Active(t.phases[a]) && Active(t.phases[b]) ==> a == b
  {
    InitialSound(requests, s);
    RunKeepsSound(requests, s, s, events, t);
    hide Run, Active, TokensApart, Passes, Committed, Replay, Wrote, Progress;
    forall i | 0 <= i < |t.log| ensures Entitled(requests, s, t.log, i) && t.log[i].version == s.version + i + 1 {
    }
  }

  /** Two different batches committed, both of whose callers had stated `expected`. */
  ghost predicate BothCommit<D>(requests: map<Id, Request<D>>, s: System<D>, events: seq<Event>, expected: int) {
    var end := Run(requests, s, events);
    end.Some? && exists i, j ::
      0 <= i < j < |end.value.log|
      && end.value.log[i].id in requests && requests[end.value.log[i].id].expected == Some(expected)
      && end.value.log[j].id in requests && requests[end.value.log[j].id].expected == Some(expected)
  }

  /** A stated version the library had already reached lets one batch through at most. */
  lemma SameExpectedOnce<D>(requests: map<Id, Request<D>>, s: System<D>, events: seq<Event>, expected: int)
    requires Initial(requests, s) && BothCommit(requests, s, events, expected)
    ensures s.version < expected
  {
    hide Run;
    var t := Run(requests, s, events).value;
    EveryInterleaving(requests, s, events, t);
    var i, j :| 0 <= i < j < |t.log|
      && t.log[i].id in requests && requests[t.log[i].id].expected == Some(expected)
      && t.log[j].id in requests && requests[t.log[j].id].expected == Some(expected);
    assert Entitled(requests, s, t.log, j);
  }

  function Solo(id: Id): seq<Event> {
    [Lock(id), Check(id), Bump(id), SaveNext(id), Finish(id)]
  }

  lemma RunAppends<D>(requests: map<Id, Request<D>>, s: System<D>, first: seq<Event>, second: seq<Event>, m: System<D>)
    requires Run(requests, s, first) == Some(m)
    ensures Run(requests, s, first + second) == Run(requests, m, second)
    decreases |first|
  {
    hide Step;
    if first == [] {
      assert first + second == second;
    } else {
      assert (first + second)[1..] == first[1..] + second;
      RunAppends(requests, Step(requests, s, first[0]).value, first[1..], second, m);
    }
  }

  lemma RunFive<D>(requests: map<Id, Request<D>>, events: seq<Event>, a: System<D>, b: System<D>, c: System<D>,
                d: System<D>, e: System<D>, f: System<D>)
    requires |events| == 5
    requires Step(requests, a, events[0]) == Some(b) && Step(requests, b, events[1]) == Some(c)
    requires Step(requests, c, events[2]) == Some(d) && Step(requests, d, events[3]) == Some(e)
    requires Step(requests, e, events[4]) == Some(f)
    ensures Run(requests, a, events) == Some(f)
  {
    hide Step;
    assert events[1..][1..] == events[2..] && events[2..][1..] == events[3..] && events[3..][1..] == events[4..];
    assert events[4..][1..] == [];
    assert Run(requests, f, []) == Some(f);
    assert Run(requests, e, events[4..]) == Some(f);
    assert Run(requests, d, events[3..]) == Some(f);
    assert Run(requests, c, events[2..]) == Some(f);
  }

  /** What a request with one object to write makes of the data. */
  ghost predicate WritesTo<D>(request: Request<D>, version: nat, data: D, written: D) {
    && |request.payloads| == 1
    && exists rendered :: request.save(data, request.payloads[0], version + 1) == BatchWrite.Written(written, rendered)
  }

  /**
   With the lock free, a request that is not behind the library, states a version if it
   has to, brings no used token and has an object to write can always commit.
   */
  lemma SoloCommits<D>(requests: map<Id, Request<D>>, s: System<D>, id: Id, written: D) returns (t: System<D>)
    requires id in requests && id in s.phases && s.phases[id] == Waiting && s.holder == None
    requires match requests[id].expected case None => !requests[id].required case Some(stated) => s.version <= stated
    requires requests[id].token.Some? ==> requests[id].token.value !in s.tokens
    requires WritesTo(requests[id], s.version, s.data, written)
    ensures Run(requests, s, Solo(id)) == Some(t)
    ensures t.version == s.version + 1 && t.log == s.log + [Commit(id, s.version + 1)] && t.data == written
    ensures t.holder == None && t.phases == s.phases[id := Done]
    ensures requests[id].token == None ==> t.tokens == s.tokens
  {
    var b := s.(holder := Some(id), phases := s.phases[id := Locked]);
    var c := b.(phases := b.phases[id := Checked]);
    var d := c.(phases := c.phases[id := Saving(s.version + 1, s.data, 0, false)]);
    var e := d.(phases := d.phases[id := Saving(s.version + 1, written, 1, true)]);
    t := Step(requests, e, Finish(id)).value;
    RunFive(requests, Solo(id), s, b, c, d, e, t);
    assert t.phases == s.phases[id := Done];
  }

  /**
   Requests stating the same version can both commit exactly when the library had not
   reached that version when they started.
   */
  lemma TwiceAhead(version: nat, expected: int)
    returns (requests: map<Id, Request<nat>>, s: System<nat>, events: seq<Event>)
    requires version < expected
    ensures Initial(requests, s) && s.version == version && BothCommit(requests, s, events, expected)
  {
    hide Run;
    var counting: BatchWrite.Saver<nat> :=
      (count: nat, payload, v) => BatchWrite.Written(count + 1, BatchWrite.Rendered("", false));
    var request := Request(Some(expected), false, None, [BatchWrite.Payload("", [])], counting);
    requests := map[0 := request, 1 := request];
    s := System(version, 0, {}, map[0 := Waiting, 1 := Waiting], None, []);
    var m := SoloCommits(requests, s, 0, 1);
    var t := SoloCommits(requests, m, 1, 2);
    RunAppends(requests, s, Solo(0), Solo(1), m);
    events := Solo(0) + Solo(1);
    assert t.log[0].id == 0 && t.log[1].id == 1;
    assert Run(requests, s, events) == Some(t);
  }

  lemma SameExpectedTwiceIffAhead(version: nat, expected: int)
    ensures (exists requests: map<Id, Request<nat>>, s: System<nat>, events ::
               Initial(requests, s) && s.version == version && BothCommit(requests, s, events, expected))
       <==> version < expected
  {
    hide BothCommit, Initial;
    if version < expected {
      var requests, s, events := TwiceAhead(version, expected);
    }
    if requests: map<Id, Request<nat>>, s: System<nat>, events :|
      Initial(requests, s) && s.version == version && BothCommit(requests, s, events, expected)
    {
      SameExpectedOnce(requests, s, events, expected);
    }
  }
}
