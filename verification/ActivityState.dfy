/** The audit of tool calls: newest call first, with an index of sessions that is kept up to date
    instead of being recomputed, and a byte budget. */
module ActivityStates {

  datatype Option<+T> = None | Some(value: T)

  datatype Status = Running | Success | Failure

  /** A nested call: its number among all that its call recorded, and its size. */
  datatype Sub = Sub(number: nat, size: nat)

  /** `own` is the size without the nested calls; `pushed` counts all nested calls ever recorded. */
  datatype Call = Call(id: nat, session: nat, status: Status, own: nat, subs: seq<Sub>, pushed: nat)

  datatype Summary = Summary(calls: nat, errors: nat, lastId: nat, lastStatus: Status)

  datatype Limits = Limits(calls: nat, subs: nat, bytes: nat) {
    predicate Valid() {
      calls >= 1 && subs >= 2 && bytes >= 1
    }
  }

  datatype State = State(calls: seq<Call>, sessions: map<nat, Summary>, sizes: map<nat, int>, bytes: int, next: nat, enabled: bool)

  const Empty := State([], map[], map[], 0, 0, true)

  // ---- the index, recomputed ----

  function Count(calls: seq<Call>, session: nat): nat {
    if calls == [] then 0
    else Count(calls[..|calls| - 1], session) + (if calls[|calls| - 1].session == session then 1 else 0)
  }

  function Errors(calls: seq<Call>, session: nat): nat {
    if calls == [] then 0
    else
      var c := calls[|calls| - 1];
      Errors(calls[..|calls| - 1], session) + (if c.session == session && c.status == Failure then 1 else 0)
  }

  /** The first call of the session, which is its newest. */
  function Newest(calls: seq<Call>, session: nat): (r: Option<Call>)
    ensures r.Some? <==> Count(calls, session) > 0
    ensures r.Some? ==> r.value in calls && r.value.session == session
  {
    if calls == [] then None
    else
      var earlier := Newest(calls[..|calls| - 1], session);
      if earlier.Some? then earlier
      else if calls[|calls| - 1].session == session then Some(calls[|calls| - 1])
      else None
  }

  function Summarize(calls: seq<Call>, session: nat): Summary
    requires Count(calls, session) > 0
  {
    var newest := Newest(calls, session).value;
    Summary(Count(calls, session), Errors(calls, session), newest.id, newest.status)
  }

  /** `rebuildSession` */
  function Rebuild(s: State, session: nat): State {
    if Count(s.calls, session) == 0 then s.(sessions := s.sessions - {session})
    else s.(sessions := s.sessions[session := Summarize(s.calls, session)])
  }

  // ---- sizes ----

  function SubSizes(subs: seq<Sub>): nat {
    if subs == [] then 0 else SubSizes(subs[..|subs| - 1]) + subs[|subs| - 1].size
  }

  function CallSize(c: Call): nat {
    c.own + SubSizes(c.subs)
  }

  function Total(calls: seq<Call>): nat {
    if calls == [] then 0 else Total(calls[..|calls| - 1]) + CallSize(calls[|calls| - 1])
  }

  function Find(calls: seq<Call>, id: nat): (i: nat)
    ensures i <= |calls|
    ensures i < |calls| ==> calls[i].id == id
    ensures i == |calls| ==> forall j :: 0 <= j < |calls| ==> calls[j].id != id
  {
    if calls == [] || calls[0].id == id then 0 else 1 + Find(calls[1..], id)
  }

  // ---- the operations ----

  /** `evictOldest` */
  function Evict(s: State): State
    requires s.calls != []
  {
    var removed := s.calls[|s.calls| - 1];
    Rebuild(
      s.(calls := s.calls[..|s.calls| - 1],
         bytes := s.bytes - (if removed.id in s.sizes then s.sizes[removed.id] else 0),
         sizes := s.sizes - {removed.id}),
      removed.session)
  }

  /** Evicts the oldest calls while the bytes are over the budget and more than one call is left. */
  function Shrink(s: State, limits: Limits): (r: State)
    decreases |s.calls|
  {
    if s.bytes > limits.bytes && |s.calls| > 1 then Shrink(Evict(s), limits) else s
  }

  /** `resize` */
  function Resize(s: State, id: nat, delta: int, limits: Limits): State {
    if Find(s.calls, id) == |s.calls| || delta == 0 then s
    else
      Shrink(s.(sizes := s.sizes[id := (if id in s.sizes then s.sizes[id] else 0) + delta], bytes := s.bytes + delta), limits)
  }

  function Counted(s: State, session: nat, id: nat): Summary {
    if session in s.sessions
    then Summary(s.sessions[session].calls + 1, s.sessions[session].errors, id, Running)
    else Summary(1, 0, id, Running)
  }

  /** `startCall`; `size` is the size of the arguments. */
  function StartCall(s: State, session: nat, size: nat, limits: Limits): State {
    if !s.enabled then s
    else
      var id := s.next;
      var call := Call(id, session, Running, 512 + size, [], 0);
      var t := s.(calls := [call] + s.calls, sessions := s.sessions[session := Counted(s, session, id)], next := id + 1);
      var u := if |t.calls| > limits.calls then Evict(t) else t;
      Resize(u, id, 512 + size, limits)
  }

  function Head(maxSubs: nat): (h: nat)
    ensures h >= 1 && (h == 1 || 5 * h <= maxSubs) && maxSubs < 5 * (h + 1)
  {
    if maxSubs / 5 > 1 then maxSubs / 5 else 1
  }

  /** The nested calls with one more; when the list is full the first one behind the head leaves. */
  function Pushed(subs: seq<Sub>, sub: Sub, maxSubs: nat): seq<Sub> {
    if |subs| < maxSubs || Head(maxSubs) >= |subs| then subs + [sub]
    else subs[..Head(maxSubs)] + subs[Head(maxSubs) + 1..] + [sub]
  }

  /** `pushSubcall` for a call that is still retained. */
  function PushSub(s: State, id: nat, size: nat, limits: Limits): State {
    var i := Find(s.calls, id);
    if i == |s.calls| then s
    else
      var c := s.calls[i];
      var d := c.(subs := Pushed(c.subs, Sub(c.pushed, size), limits.subs), pushed := c.pushed + 1);
      Resize(s.(calls := s.calls[i := d]), id, CallSize(d) - CallSize(c), limits)
  }

  function FindSub(subs: seq<Sub>, number: nat): (k: nat)
    ensures k <= |subs|
    ensures k < |subs| ==> subs[k].number == number
  {
    if subs == [] || subs[0].number == number then 0 else 1 + FindSub(subs[1..], number)
  }

  /** The end of a nested call; one that has left the list changes nothing. */
  function FinishSub(s: State, id: nat, number: nat, size: nat, limits: Limits): State {
    var i := Find(s.calls, id);
    if i == |s.calls| then s
    else
      var c := s.calls[i];
      var k := FindSub(c.subs, number);
      if k == |c.subs| then s
      else
        var d := c.(subs := c.subs[k := Sub(number, size)]);
        Resize(s.(calls := s.calls[i := d]), id, size - c.subs[k].size, limits)
  }

  function Finished(u: Summary, id: nat, status: Status): Summary {
    Summary(u.calls, u.errors + (if status == Failure then 1 else 0), u.lastId, if u.lastId == id then status else u.lastStatus)
  }

  /** `finish`, which runs once for each call; `added` is the size of the output and the error. */
  function FinishCall(s: State, id: nat, status: Status, added: nat, limits: Limits): State {
    var i := Find(s.calls, id);
    if i == |s.calls| || s.calls[i].status != Running || status == Running then s
    else
      var c := s.calls[i];
      var t := s.(calls := s.calls[i := c.(status := status, own := c.own + added)],
                  sessions := if c.session in s.sessions
                    then s.sessions[c.session := Finished(s.sessions[c.session], id, status)] else s.sessions);
      Resize(t, id, added, limits)
  }

  function Clear(s: State): State {
    s.(calls := [], sessions := map[], sizes := map[], bytes := 0)
  }

  datatype Event =
    | Starts(session: nat, size: nat)
    | Pushes(id: nat, size: nat)
    | EndsSub(id: nat, number: nat, size: nat)
    | Ends(id: nat, status: Status, added: nat)
    | Clears
    | Disables
    | Enables

  function Step(s: State, ev: Event, limits: Limits): State {
    match ev
    case Starts(session, size) => StartCall(s, session, size, limits)
    case Pushes(id, size) => PushSub(s, id, size, limits)
    case EndsSub(id, number, size) => FinishSub(s, id, number, size, limits)
    case Ends(id, status, added) => FinishCall(s, id, status, added, limits)
    case Clears => Clear(s)
    case Disables => if s.enabled then Clear(s).(enabled := false) else s
    case Enables => s.(enabled := true)
  }

  function Run(s: State, events: seq<Event>, limits: Limits): State
    decreases |events|
  {
    if events == [] then s else Run(Step(s, events[0], limits), events[1..], limits)
  }
}
