/**
 Replaying a flush against the server: the queued edits go out with the library
 version the first of them was made at, and again if the server has moved on.
 */
module ProtocolSequences {
  import opened Common
  import opened ProtocolSpec
  import opened ProtocolInvariants

  datatype Sent = Sent(key: Key, version: int, data: Fields)

  /** One upload: the library version it assumes, and the objects with theirs. */
  datatype Request = Request(expected: nat, objects: seq<Sent>)

  /** The server refuses a library version it has left behind (`check_library_version`). */
  predicate LibraryMoved(s: State, upload: Request) {
    s.version > upload.expected
  }

  /** The server refuses an object version that is not the stored one (`check_object_version`). */
  predicate ObjectsCurrent(s: State, upload: Request) {
    forall i :: 0 <= i < |upload.objects| ==>
      upload.objects[i].key in s.items &&
      upload.objects[i].version == VersionOf(s.items[upload.objects[i].key])
  }

  predicate Carries(upload: Request, queue: seq<Pending>) {
    && |upload.objects| == |queue|
    && forall i :: 0 <= i < |queue| ==>
         upload.objects[i].key == queue[i].key && upload.objects[i].data == queue[i].data
  }

  /** Over sound queues, the base of the first edit says whether the others are current. */
  lemma FirstBaseNow(s: State, client: Client)
    requires Invariant(s) && client in s.pending && s.pending[client] != []
    ensures s.pending[client][0].base <= s.version
    ensures s.pending[client][0].base == s.version ==>
      forall i :: 0 <= i < |s.pending[client]| ==>
        && s.pending[client][i].key in s.items
        && s.pending[client][i].version == VersionOf(s.items[s.pending[client][i].key])
  {
  }

  /**
   After any run a client's queue goes from older bases to newer ones, none later than
   the library. If the first is the current version, so is what every queued edit says
   of its object; otherwise the library moved since the first edit was queued.
   */
  lemma FirstBaseDecides(ops: seq<Operation>, t: State, client: Client)
    requires Run(INITIAL, ops) == Some(t) && client in t.pending
    ensures forall i, j :: 0 <= i <= j < |t.pending[client]| ==>
      t.pending[client][i].base <= t.pending[client][j].base <= t.version
    ensures t.pending[client] != [] && t.pending[client][0].base == t.version ==>
      forall i :: 0 <= i < |t.pending[client]| ==>
        && t.pending[client][i].key in t.items
        && t.pending[client][i].version == VersionOf(t.items[t.pending[client][i].key])
  {
    hide Run, GraphSound, RowsDated;
    InitialInvariant();
    RunKeepsInvariant(INITIAL, ops, t);
    assert QueueSound(t.items, t.pending[client], t.version);
    if t.pending[client] != [] {
      FirstBaseNow(t, client);
    }
  }

  /**
   The uploads a flush makes from a reachable state. The first is refused exactly when
   the library moved since the oldest queued edit; whichever upload is the last one,
   the server has no reason to refuse it, and it carries the queued edits in order.
   */
  method FlushUploads(before: State, actor: Client) returns (first: Request, retry: Option<Request>)
    requires Invariant(before) && actor in before.pending && before.pending[actor] != []
    ensures LibraryMoved(before, first) <==> retry.Some?
    ensures LibraryMoved(before, first) <==> before.pending[actor][0].base < before.version
    ensures var last := if retry.Some? then retry.value else first;
            !LibraryMoved(before, last) && ObjectsCurrent(before, last)
            && Carries(last, before.pending[actor])
  {
    var queued := before.pending[actor];
    FirstBaseNow(before, actor);
    var payload: seq<Sent> := [];
    for i := 0 to |queued|
      invariant |payload| == i
      invariant forall j :: 0 <= j < i ==>
        payload[j] == Sent(queued[j].key, queued[j].version, queued[j].data)
    {
      payload := payload + [Sent(queued[i].key, queued[i].version, queued[i].data)];
    }
    first := Request(queued[0].base, payload);
    retry := None;
    if queued[0].base != before.version {
      payload := [];
      for i := 0 to |queued|
        invariant |payload| == i
        invariant forall j :: 0 <= j < i ==>
          queued[j].key in before.items &&
          payload[j] == Sent(queued[j].key, VersionOf(before.items[queued[j].key]), queued[j].data)
      {
        QueuedLive(before, actor, i);
        payload := payload + [Sent(queued[i].key, VersionOf(before.items[queued[i].key]), queued[i].data)];
      }
      retry := Some(Request(before.version, payload));
    }
  }
}
