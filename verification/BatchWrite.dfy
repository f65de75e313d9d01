/**
 The multi-object write: one transaction, a savepoint around every object. The method
 works on a session with snapshots; what it commits is stated as a fold over the
 objects that were saved.
 */
module BatchWrite {
  import opened Common

  // ------------------------------------------------------------------ types

  /** What saving one object comes to; `dirty` is what the attempt left in the session. */
  datatype Saving<+D> =
    | Rejected(dirty: D, code: int, message: string, subject: Option<map<string, string>>)
    | Same(dirty: D)
    | Written(data: D, rendered: Rendered)
    | Crashed

  /** The parts of a serialized object the batch looks at. */
  datatype Rendered = Rendered(key: string, deleted: bool)

  datatype Payload = Payload(key: string, fields: seq<string>)

  datatype ActivityKind = ItemsChanged | CollectionsChanged | ItemsDeleted | OtherChanged

  datatype Activity = Activity(kind: ActivityKind, count: nat, keys: seq<string>)

  /** One library's rows: its version, its objects, the write tokens and the activity log. */
  datatype Store<D> = Store(version: nat, data: D, tokens: map<string, int>, activity: seq<Activity>)

  /** What is reported of a failure; a key or a subject that says nothing is left out. */
  datatype Failure = Failure(key: Option<string>, code: int, message: string, subject: Option<map<string, string>>)

  datatype WriteResults = WriteResults(
    successful: map<nat, Rendered>,
    untouched: map<nat, string>,
    failed: map<nat, Failure>)

  datatype Refusal = PreconditionRequired | PreconditionFailed | TokenInvalid | TokenUsed

  datatype Response =
    | Refused(refusal: Refusal)
    | Aborted
    | Report(results: WriteResults, version: nat)

  /** The request's headers and what the route says about it. */
  datatype Request = Request(
    expected: Option<int>,
    required: bool,
    token: Option<string>,
    now: int,
    kind: Option<ActivityKind>,
    group: bool)

  type Saver<!D> = (D, Payload, nat) -> Saving<D>

  function FailureOf(key: string, code: int, message: string, subject: Option<map<string, string>>): (f: Failure)
    ensures f.key.None? <==> key == ""
    ensures f.subject.None? <==> subject == None || subject == Some(map[])
    ensures f.code == code && f.message == message
    ensures (f.key.Some? ==> f.key == Some(key)) && (f.subject.Some? ==> f.subject == subject)
  {
    Failure(if key == "" then None else Some(key), code, message, if subject == Some(map[]) then None else subject)
  }

  const TOKEN_LENGTH := 32
  const TOKEN_LIFETIME := 12 * 60 * 60

  // ------------------------------------------------------------------- fold

  /** Only a written object changes anything. */
  function Next<D>(save: Saver<D>, data: D, payload: Payload, version: nat): D {
    match save(data, payload, version)
    case Written(after, _) => after
    case _ => data
  }

  function After<D>(save: Saver<D>, data: D, payloads: seq<Payload>, version: nat, n: nat): D
    requires n <= |payloads|
  {
    if n == 0 then data
    else Next(save, After(save, data, payloads, version, n - 1), payloads[n - 1], version)
  }

  /** What became of object `i`, saved on top of the ones written before it. */
  function Verdict<D>(save: Saver<D>, data: D, payloads: seq<Payload>, version: nat, i: nat): Saving<D>
    requires i < |payloads|
  {
    save(After(save, data, payloads, version, i), payloads[i], version)
  }

  ghost predicate Completes<D>(save: Saver<D>, data: D, payloads: seq<Payload>, version: nat) {
    forall i: nat :: i < |payloads| ==> !Verdict(save, data, payloads, version, i).Crashed?
  }

  ghost predicate AnyWritten<D>(save: Saver<D>, data: D, payloads: seq<Payload>, version: nat) {
    exists i: nat :: i < |payloads| && Verdict(save, data, payloads, version, i).Written?
  }

  /** The first `n` objects that were written, in the order they were sent. */
  function Successes<D>(save: Saver<D>, data: D, payloads: seq<Payload>, version: nat, n: nat): seq<Payload>
    requires n <= |payloads|
  {
    if n == 0 then []
    else
      var before := Successes(save, data, payloads, version, n - 1);
      if Verdict(save, data, payloads, version, n - 1).Written? then before + [payloads[n - 1]] else before
  }

  lemma {:induction false} AfterPrefix<D>(save: Saver<D>, data: D, payloads: seq<Payload>, version: nat,
                                          more: seq<Payload>, n: nat)
    requires n <= |payloads|
    ensures After(save, data, payloads + more, version, n) == After(save, data, payloads, version, n)
    decreases n
  {
    if n > 0 {
      AfterPrefix(save, data, payloads, version, more, n - 1);
    }
  }

  /**
   Applying only the written objects, in order and to the same state, writes every one
   of them and ends in the same state: the others leave no trace.
   */
  lemma {:induction false} OnlySuccessesMatter<D>(save: Saver<D>, data: D, payloads: seq<Payload>,
                                                  version: nat, n: nat)
    requires n <= |payloads|
    ensures var done := Successes(save, data, payloads, version, n);
            && After(save, data, done, version, |done|) == After(save, data, payloads, version, n)
            && forall i: nat :: i < |done| ==> Verdict(save, data, done, version, i).Written?
    decreases n
  {
    if n > 0 {
      OnlySuccessesMatter(save, data, payloads, version, n - 1);
      var before := Successes(save, data, payloads, version, n - 1);
      if Verdict(save, data, payloads, version, n - 1).Written? {
        var done := before + [payloads[n - 1]];
        forall i: nat | i <= |before|
          ensures After(save, data, done, version, i) == After(save, data, before, version, i)
        {
          AfterPrefix(save, data, before, version, [payloads[n - 1]], i);
        }
        forall i: nat | i < |done| ensures Verdict(save, data, done, version, i).Written? {
          if i < |before| {
            assert Verdict(save, data, before, version, i).Written?;
          }
        }
      }
    }
  }

  // ---------------------------------------------------------------- results

  /** Every index is reported once, under what became of it, and nothing else is. */
  ghost predicate Reports<D>(results: WriteResults, save: Saver<D>, data: D, payloads: seq<Payload>,
                             version: nat, n: nat)
    requires n <= |payloads|
  {
    && (forall i :: i in results.successful || i in results.untouched || i in results.failed ==> i < n)
    && forall i: nat :: i < n ==>
         match Verdict(save, data, payloads, version, i)
         case Written(_, rendered) =>
           i in results.successful && results.successful[i] == rendered
           && i !in results.untouched && i !in results.failed
         case Same(_) =>
           i in results.untouched && results.untouched[i] == payloads[i].key
           && i !in results.successful && i !in results.failed
         case Rejected(_, code, message, subject) =>
           i in results.failed && results.failed[i] == FailureOf(payloads[i].key, code, message, subject)
           && i !in results.successful && i !in results.untouched
         case Crashed => false
  }

  lemma NothingReported<D>(results: WriteResults, save: Saver<D>, data: D, payloads: seq<Payload>, version: nat)
    requires results == WriteResults(map[], map[], map[])
    ensures Reports(results, save, data, payloads, version, 0)
  {
  }

  lemma OneMoreReported<D>(before: WriteResults, results: WriteResults, save: Saver<D>, data: D,
                           payloads: seq<Payload>, version: nat, n: nat)
    requires n < |payloads| && Reports(before, save, data, payloads, version, n)
    requires match Verdict(save, data, payloads, version, n)
      case Written(_, rendered) => results == before.(successful := before.successful[n := rendered])
      case Same(_) => results == before.(untouched := before.untouched[n := payloads[n].key])
      case Rejected(_, code, message, subject) =>
        results == before.(failed := before.failed[n := FailureOf(payloads[n].key, code, message, subject)])
      case Crashed => false
    ensures Reports(results, save, data, payloads, version, n + 1)
  {
    hide Verdict;
  }

  lemma ReportedWritten<D>(results: WriteResults, save: Saver<D>, data: D, payloads: seq<Payload>, version: nat)
    requires Reports(results, save, data, payloads, version, |payloads|)
    ensures results.successful != map[] <==> AnyWritten(save, data, payloads, version)
  {
  }

  /** The written keys below `n` that are in the trash, or are not. */
  function KeysWritten(successful: map<nat, Rendered>, trashed: bool, n: nat): seq<string> {
    if n == 0 then []
    else
      var before := KeysWritten(successful, trashed, n - 1);
      if n - 1 in successful && successful[n - 1].key != "" && successful[n - 1].deleted == trashed
      then before + [successful[n - 1].key] else before
  }

  /** Exactly the written keys below `n` with that flag, those without a key left out. */
  lemma {:induction false} KeysWrittenExactly(successful: map<nat, Rendered>, trashed: bool, n: nat, key: string)
    ensures key in KeysWritten(successful, trashed, n) <==>
      key != "" && exists i :: 0 <= i < n && i in successful && successful[i] == Rendered(key, trashed)
    decreases n
  {
    if n > 0 {
      KeysWrittenExactly(successful, trashed, n - 1, key);
    }
  }

  /** Together both parts are as many as the written objects that have a key. */
  lemma {:induction false} KeysWrittenCount(successful: map<nat, Rendered>, n: nat)
    ensures |KeysWritten(successful, false, n)| + |KeysWritten(successful, true, n)|
         == |set i | 0 <= i < n && i in successful && successful[i].key != ""|
    decreases n
  {
    var counted := set i | 0 <= i < n && i in successful && successful[i].key != "";
    if n > 0 {
      var before := set i | 0 <= i < n - 1 && i in successful && successful[i].key != "";
      KeysWrittenCount(successful, n - 1);
      assert counted == if n - 1 in successful && successful[n - 1].key != "" then before + {n - 1} else before;
    }
  }

  method Partition(successful: map<nat, Rendered>, n: nat) returns (changed: seq<string>, trashed: seq<string>)
    ensures changed == KeysWritten(successful, false, n)
    ensures trashed == KeysWritten(successful, true, n)
    ensures forall key :: key in changed <==>
      key != "" && exists i :: 0 <= i < n && i in successful && successful[i] == Rendered(key, false)
    ensures forall key :: key in trashed <==>
      key != "" && exists i :: 0 <= i < n && i in successful && successful[i] == Rendered(key, true)
    ensures |changed| + |trashed| == |set i | 0 <= i < n && i in successful && successful[i].key != ""|
  {
    changed, trashed := [], [];
    for i := 0 to n
      invariant changed == KeysWritten(successful, false, i)
      invariant trashed == KeysWritten(successful, true, i)
    {
      if i in successful && successful[i].key != "" {
        if successful[i].deleted {
          trashed := trashed + [successful[i].key];
        } else {
          changed := changed + [successful[i].key];
        }
      }
    }
    KeysWrittenCount(successful, n);
    forall key
      ensures key in changed <==>
        key != "" && exists i :: 0 <= i < n && i in successful && successful[i] == Rendered(key, false)
      ensures key in trashed <==>
        key != "" && exists i :: 0 <= i < n && i in successful && successful[i] == Rendered(key, true)
    {
      KeysWrittenExactly(successful, false, n, key);
      KeysWrittenExactly(successful, true, n, key);
    }
  }

  /** A row for a group whose change touched something; none otherwise. */
  function Recorded(activity: seq<Activity>, group: bool, kind: ActivityKind, keys: seq<string>): seq<Activity> {
    if group && keys != [] then activity + [Activity(kind, |keys|, keys)] else activity
  }

  function Logged(activity: seq<Activity>, request: Request, successful: map<nat, Rendered>, n: nat): seq<Activity> {
    match request.kind
    case None => activity
    case Some(kind) =>
      var changed, trashed := KeysWritten(successful, false, n), KeysWritten(successful, true, n);
      if kind == ItemsChanged then
        Recorded(Recorded(activity, request.group, kind, changed), request.group, ItemsDeleted, trashed)
      else
        Recorded(activity, request.group, kind, changed + trashed)
  }

  /** Under what a written object is logged: only an item in the trash counts as deleted. */
  predicate LoggedAs(kind: ActivityKind, trashed: bool, logged: ActivityKind) {
    logged == (if kind == ItemsChanged && trashed then ItemsDeleted else kind)
  }

  ghost predicate Wrote(successful: map<nat, Rendered>, n: nat, key: string, trashed: bool) {
    key != "" && exists i :: 0 <= i < n && i in successful && successful[i] == Rendered(key, trashed)
  }

  predicate RowNames(row: Activity, kind: ActivityKind, key: string) {
    row.kind == kind && key in row.keys
  }

  /** The log names the key under that kind of change, after its first `from` rows. */
  ghost predicate Names(activity: seq<Activity>, from: nat, kind: ActivityKind, key: string) {
    exists i :: from <= i < |activity| && RowNames(activity[i], kind, key)
  }

  /** What the request and what was written ask the log to name. */
  ghost predicate Due(request: Request, successful: map<nat, Rendered>, n: nat, kind: ActivityKind, key: string) {
    && request.group && request.kind.Some?
    && exists trashed :: Wrote(successful, n, key, trashed) && LoggedAs(request.kind.value, trashed, kind)
  }

  lemma OneRow(activity: seq<Activity>, group: bool, kind: ActivityKind, keys: seq<string>)
    ensures var now := Recorded(activity, group, kind, keys);
            && activity <= now && |now| <= |activity| + 1
            && (forall i :: |activity| <= i < |now| ==>
                  now[i].kind == kind && now[i].count == |now[i].keys| && now[i].keys != [])
            && forall k, key :: Names(now, |activity|, k, key) <==> group && k == kind && key in keys
  {
    var now := Recorded(activity, group, kind, keys);
    forall k, key ensures Names(now, |activity|, k, key) <==> group && k == kind && key in keys {
      if group && k == kind && key in keys {
        assert RowNames(now[|activity|], k, key);
      }
    }
  }

  /**
   A group's batch that is to be logged adds a row for each kind of change it made, with
   the keys that changed so and their count; any other adds nothing.
   */
  lemma LoggedExactly(activity: seq<Activity>, request: Request, successful: map<nat, Rendered>, n: nat)
    ensures var now := Logged(activity, request, successful, n);
            && activity <= now
            && (forall i :: |activity| <= i < |now| ==> now[i].count == |now[i].keys| && now[i].keys != [])
            && (forall i, j :: |activity| <= i < j < |now| ==> now[i].kind != now[j].kind)
            && forall kind, key :: Names(now, |activity|, kind, key) <==> Due(request, successful, n, kind, key)
  {
    hide Wrote, Recorded, KeysWritten;
    var now := Logged(activity, request, successful, n);
    if request.kind.Some? {
      var kind := request.kind.value;
      var changed, trashed := KeysWritten(successful, false, n), KeysWritten(successful, true, n);
      forall key ensures key in changed <==> Wrote(successful, n, key, false)
        ensures key in trashed <==> Wrote(successful, n, key, true) {
        WrittenKeys(successful, n, key);
      }
      if kind == ItemsChanged {
        var mid := Recorded(activity, request.group, kind, changed);
        OneRow(activity, request.group, kind, changed);
        OneRow(mid, request.group, ItemsDeleted, trashed);
        forall k, key ensures Names(now, |activity|, k, key) <==>
          Names(mid, |activity|, k, key) || Names(now, |mid|, k, key) {
          NamesSplit(activity, mid, now, k, key);
        }
      } else {
        OneRow(activity, request.group, kind, changed + trashed);
      }
    }
  }

  lemma WrittenKeys(successful: map<nat, Rendered>, n: nat, key: string)
    ensures key in KeysWritten(successful, false, n) <==> Wrote(successful, n, key, false)
    ensures key in KeysWritten(successful, true, n) <==> Wrote(successful, n, key, true)
  {
    KeysWrittenExactly(successful, false, n, key);
    KeysWrittenExactly(successful, true, n, key);
  }

  lemma NamesSplit(activity: seq<Activity>, mid: seq<Activity>, now: seq<Activity>, kind: ActivityKind, key: string)
    requires activity <= mid <= now
    ensures Names(now, |activity|, kind, key) <==> Names(mid, |activity|, kind, key) || Names(now, |mid|, kind, key)
  {
    if i :| |activity| <= i < |mid| && RowNames(mid[i], kind, key) {
      assert now[i] == mid[i];
    }
    if i :| |activity| <= i < |now| && RowNames(now[i], kind, key) {
      assert i < |mid| ==> mid[i] == now[i];
    }
  }

  // ----------------------------------------------------------------- checks

  /** What a request is refused for before anything is written, if it is. */
  function Refusing<D>(store: Store<D>, request: Request): Option<Refusal> {
    match request.expected
    case None =>
      if request.required then Some(PreconditionRequired) else RefusingToken(store, request)
    case Some(expected) =>
      if store.version > expected then Some(PreconditionFailed) else RefusingToken(store, request)
  }

  function RefusingToken<D>(store: Store<D>, request: Request): Option<Refusal> {
    match request.token
    case None => None
    case Some(token) =>
      if |token| != TOKEN_LENGTH then Some(TokenInvalid)
      else if token in Unexpired(store.tokens, request.now) then Some(TokenUsed)
      else None
  }

  function Unexpired(tokens: map<string, int>, now: int): map<string, int> {
    map t | t in tokens && tokens[t] >= now - TOKEN_LIFETIME :: tokens[t]
  }

  function Claimed(tokens: map<string, int>, request: Request): map<string, int> {
    match request.token
    case None => tokens
    case Some(token) => Unexpired(tokens, request.now)[token := request.now]
  }

  /** The library is not past the version stated, and one is stated if it has to be. */
  predicate InTime(version: nat, request: Request) {
    match request.expected
    case None => !request.required
    case Some(expected) => version <= expected
  }

  /** The token was used, and no more than twelve hours ago. */
  predicate SeenLately(tokens: map<string, int>, token: string, now: int) {
    token in tokens && now - tokens[token] <= 12 * 60 * 60
  }

  /** A request is refused for the first of four reasons that applies, and for no other. */
  lemma RefusingExactly<D>(store: Store<D>, request: Request)
    ensures Refusing(store, request) == Some(PreconditionRequired) <==> request.expected.None? && request.required
    ensures Refusing(store, request) == Some(PreconditionFailed) <==>
      request.expected.Some? && store.version > request.expected.value
    ensures Refusing(store, request) == Some(TokenInvalid) <==>
      InTime(store.version, request) && request.token.Some? && |request.token.value| != 32
    ensures Refusing(store, request) == Some(TokenUsed) <==>
      && InTime(store.version, request) && request.token.Some? && |request.token.value| == 32
      && SeenLately(store.tokens, request.token.value, request.now)
  {
  }

  /** The request's token is remembered from now on, every other one for its twelve hours. */
  ghost predicate TokenKept(was: map<string, int>, now: map<string, int>, request: Request) {
    match request.token
    case None => now == was
    case Some(token) =>
      && token in now && now[token] == request.now
      && forall t :: t != token ==>
           (t in now <==> SeenLately(was, t, request.now)) && (t in now ==> now[t] == was[t])
  }

  lemma ClaimedExactly(tokens: map<string, int>, request: Request)
    ensures TokenKept(tokens, Claimed(tokens, request), request)
  {
  }

  /**
   A committed batch's token is refused to the same request sent again within twelve
   hours, if it is not already too late for the version it states.
   */
  lemma ResentIsRefused<D>(was: Store<D>, request: Request, after: Store<D>, again: Request)
    requires request.token.Some? && Refusing(was, request).None?
    requires after.version == was.version + 1 && TokenKept(was.tokens, after.tokens, request)
    requires again == request.(now := again.now) && request.now <= again.now <= request.now + 12 * 60 * 60
    ensures Refusing(after, again) ==
      Some(if request.expected == Some(was.version) then PreconditionFailed else TokenUsed)
  {
    hide Refusing, TokenKept;
    RefusingExactly(was, request);
    RefusingExactly(after, again);
    assert SeenLately(after.tokens, request.token.value, again.now) by { TokenThere(was, request, after); }
  }

  lemma TokenThere<D>(was: Store<D>, request: Request, after: Store<D>)
    requires request.token.Some? && TokenKept(was.tokens, after.tokens, request)
    ensures request.token.value in after.tokens && after.tokens[request.token.value] == request.now
  {
  }

  // ---------------------------------------------------------------- session

  /** A database session: what is committed, what this transaction sees, and its savepoints. */
  class Session<D> {
    var committed: Store<D>
    var current: Store<D>
    var savepoints: seq<Store<D>>

    ghost predicate Idle()
      reads this
    {
      current == committed && savepoints == []
    }

    constructor (store: Store<D>)
      ensures Idle() && committed == store
    {
      committed, current, savepoints := store, store, [];
    }

    method BeginNested()
      modifies this`savepoints
      ensures savepoints == old(savepoints) + [current]
    {
      savepoints := savepoints + [current];
    }

    method RollbackNested()
      requires savepoints != []
      modifies this`savepoints, this`current
      ensures current == old(savepoints[|savepoints| - 1])
      ensures savepoints == old(savepoints[..|savepoints| - 1])
    {
      current := savepoints[|savepoints| - 1];
      savepoints := savepoints[..|savepoints| - 1];
    }

    method CommitNested()
      requires savepoints != []
      modifies this`savepoints
      ensures savepoints == old(savepoints[..|savepoints| - 1])
    {
      savepoints := savepoints[..|savepoints| - 1];
    }

    method Commit()
      modifies this
      ensures Idle() && committed == old(current)
    {
      committed, savepoints := current, [];
    }

    method Rollback()
      modifies this
      ensures Idle() && committed == old(committed)
    {
      current, savepoints := committed, [];
    }

    /** Saves one object inside a savepoint and adds it to the report; false if it crashed. */
    method SaveOne(payload: Payload, save: Saver<D>, index: nat, version: nat, before: WriteResults)
      returns (results: WriteResults, completed: bool)
      modifies this`savepoints, this`current
      ensures completed <==> !save(old(current.data), payload, version).Crashed?
      ensures completed ==>
        && savepoints == old(savepoints)
        && current == old(current).(data := Next(save, old(current.data), payload, version))
      ensures match save(old(current.data), payload, version)
        case Written(_, rendered) => results == before.(successful := before.successful[index := rendered])
        case Same(_) => results == before.(untouched := before.untouched[index := payload.key])
        case Rejected(_, code, message, subject) =>
          results == before.(failed := before.failed[index := FailureOf(payload.key, code, message, subject)])
        case Crashed => true
    {
      results, completed := before, true;
      BeginNested();
      match save(current.data, payload, version) {
        case Rejected(dirty, code, message, subject) =>
          current := current.(data := dirty);
          RollbackNested();
          results := before.(failed := before.failed[index := FailureOf(payload.key, code, message, subject)]);
        case Same(dirty) =>
          current := current.(data := dirty);
          RollbackNested();
          results := before.(untouched := before.untouched[index := payload.key]);
        case Written(data, rendered) =>
          current := current.(data := data);
          CommitNested();
          results := before.(successful := before.successful[index := rendered]);
        case Crashed =>
          completed := false;
      }
    }

    /** The loop over the objects; on a crash the session is left as it was found. */
    method SaveAll(payloads: seq<Payload>, save: Saver<D>, version: nat)
      returns (results: WriteResults, completed: bool)
      requires savepoints == []
      modifies this`savepoints, this`current
      ensures completed <==> Completes(save, old(current.data), payloads, version)
      ensures completed ==>
        && savepoints == []
        && current == old(current).(data := After(save, old(current.data), payloads, version, |payloads|))
        && Reports(results, save, old(current.data), payloads, version, |payloads|)
    {
      hide Reports, Next;
      ghost var was := current;
      results := WriteResults(map[], map[], map[]);
      NothingReported(results, save, was.data, payloads, version);
      for index := 0 to |payloads|
        invariant savepoints == []
        invariant current == was.(data := After(save, was.data, payloads, version, index))
        invariant Reports(results, save, was.data, payloads, version, index)
        invariant forall i: nat :: i < index ==> !Verdict(save, was.data, payloads, version, i).Crashed?
      {
        ghost var before := results;
        results, completed := SaveOne(payloads[index], save, index, version, results);
        if !completed {
          assert Verdict(save, was.data, payloads, version, index).Crashed?;
          return;
        }
        OneMoreReported(before, results, save, was.data, payloads, version, index);
      }
      completed := true;
    }

    /**
     A refused or crashed request changes nothing. Otherwise every index is reported
     once, and if anything was written the library is one version further, with exactly
     the written objects applied; if nothing was, everything is as before.
     */
    method BatchWrite(payloads: seq<Payload>, save: Saver<D>, request: Request) returns (response: Response)
      requires Idle()
      modifies this
      ensures Idle()
      ensures response == Refused(PreconditionFailed) <==>
        request.expected.Some? && old(committed.version) > request.expected.value
      ensures response == Refused(PreconditionRequired) <==> request.expected.None? && request.required
      ensures response == Refused(TokenInvalid) <==>
        InTime(old(committed.version), request) && request.token.Some? && |request.token.value| != 32
      ensures response == Refused(TokenUsed) <==>
        && InTime(old(committed.version), request) && request.token.Some? && |request.token.value| == 32
        && SeenLately(old(committed.tokens), request.token.value, request.now)
      ensures committed != old(committed) ==>
        && committed.version == old(committed.version) + 1
        && (request.expected.Some? ==> old(committed.version) <= request.expected.value)
        && TokenKept(old(committed.tokens), committed.tokens, request)
      ensures match response
        case Refused(_) => committed == old(committed)
        case Aborted =>
          && committed == old(committed)
          && !Completes(save, old(committed.data), payloads, old(committed.version) + 1)
        case Report(results, version) =>
          var was, next := old(committed), old(committed.version) + 1;
          && Completes(save, was.data, payloads, next)
          && Reports(results, save, was.data, payloads, next, |payloads|)
          && version == committed.version
          && (if AnyWritten(save, was.data, payloads, next)
              then committed == Store(next, After(save, was.data, payloads, next, |payloads|),
                                      Claimed(was.tokens, request),
                                      Logged(was.activity, request, results.successful, |payloads|))
              else committed == was)
    {
      hide Reports, Completes, AnyWritten, After, Logged, Claimed, Refusing, InTime, SeenLately,
        TokenKept;
      ghost var was := committed;
      RefusingExactly(was, request);
      ClaimedExactly(was.tokens, request);
      var refusal := Refusing(current, request);
      if refusal.Some? {
        Rollback();
        return Refused(refusal.value);
      }
      current := current.(tokens := Claimed(current.tokens, request));
      var previousVersion := current.version;
      var version := current.version + 1;
      current := current.(version := version);
      var results, completed := SaveAll(payloads, save, version);
      if !completed {
        Rollback();
        return Aborted;
      }
      ReportedWritten(results, save, was.data, payloads, version);
      if results.successful != map[] {
        Log(request, results.successful, |payloads|);
        Commit();
      } else {
        Rollback();
        version := previousVersion;
      }
      return Report(results, version);
    }

    method Log(request: Request, successful: map<nat, Rendered>, n: nat)
      modifies this`current
      ensures current == old(current).(activity := Logged(old(current.activity), request, successful, n))
    {
      if request.kind.Some? {
        var kind := request.kind.value;
        var changed, trashed := Partition(successful, n);
        if kind != ItemsChanged {
          changed, trashed := changed + trashed, [];
        }
        current := current.(activity := Recorded(current.activity, request.group, kind, changed));
        current := current.(activity := Recorded(current.activity, request.group, ItemsDeleted, trashed));
      }
    }
  }
}
