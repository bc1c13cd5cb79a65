/** When the shared budget of unread output holds in every run. */
module TerminalBudgets {
  import opened Utf8
  import opened ByteQueues
  import opened OutputViews
  import opened Terminals

  // ---- running sessions that hold nothing but first outputs ----

  function Letters(n: nat): (data: seq<byte>)
    ensures |data| == n
  {
    seq(n, _ => 0x61)
  }

  /** A running session before and after it has filled its first output. */
  function Member(id: nat, filled: bool, head: nat): Session {
    Session(id, if filled then View(Letters(head), [], 0, true) else EmptyView, 0, 1, false)
  }

  /** `n` sessions, of which the first `k` are filled. */
  function Crowd(n: nat, k: nat, head: nat): (ss: seq<Session>)
    ensures |ss| == n
    ensures forall i :: 0 <= i < n ==> ss[i] == Member(i, i < k, head)
  {
    seq(n, i requires 0 <= i < n => Member(i, i < k, head))
  }

  function Starts(n: nat): seq<Operation> {
    seq(n, i requires 0 <= i < n => Start(i, 0))
  }

  function Fills(k: nat, head: nat): seq<Operation> {
    seq(k, i requires 0 <= i < k => Append(i, Letters(head)))
  }

  lemma {:induction false} CrowdRetains(n: nat, k: nat, head: nat)
    requires k <= n
    ensures Retained(Crowd(n, k, head)) == k * head
  {
    if n > 0 {
      hide Crowd, Letters;
      var m := if k == n then k - 1 else k;
      assert Crowd(n, k, head)[..n - 1] == Crowd(n - 1, m, head);
      CrowdRetains(n - 1, m, head);
      assert k == n ==> k * head == m * head + head;
    }
  }

  // ---- nothing of it is ever dropped ----

  lemma NobodyReleased(ss: seq<Session>, source: nat, excess: int)
    requires forall s :: s in ss ==> !s.Releasable()
    ensures Release(ss, ReleaseOrder(ss), source, excess) == (ss, excess)
  {
    var order := ReleaseOrder(ss);
    SortFacts(Select(ss, (s: Session) => s.Releasable()));
    assert forall q :: q in order ==> q in ss && q.Releasable();
    FirstIn(order);
  }

  lemma FirstIn(ss: seq<Session>)
    ensures ss == [] || exists s :: s in ss
  {
    assert ss != [] ==> ss[0] in ss;
  }

  lemma NothingShed(s: Session, excess: int)
    requires s.buffer.tail == [] && s.buffer.omitted == 0
    ensures ShedSession(s, excess) == s
  {
  }

  lemma {:induction false} NobodySheds(ss: seq<Session>, queue: seq<Session>, excess: int)
    requires forall s :: s in ss ==> s.buffer.tail == [] && s.buffer.omitted == 0
    ensures ShedEach(ss, queue, excess) == ss
    decreases |queue|
  {
    if queue != [] && excess > 0 {
      forall i | 0 <= i < |ss| ensures ShedSession(ss[i], excess) == ss[i] {
        assert ss[i] in ss;
        NothingShed(ss[i], excess);
      }
      assert Change(ss, queue[0].id, x => ShedSession(x, excess)) == ss;
      NobodySheds(ss, queue[1..], excess - Shed(queue[0], excess));
    }
  }

  lemma CrowdStays(n: nat, k: nat, head: nat, total: nat, source: nat)
    ensures Enforce(total, Crowd(n, k, head), source) == Crowd(n, k, head)
  {
    hide Crowd, Retained, Release, ReleaseOrder, ShedEach, ShedOrder, Letters;
    var ss := Crowd(n, k, head);
    var excess := Retained(ss) - total;
    NobodyReleased(ss, source, excess);
    NobodySheds(ss, ShedOrder(ss, source), excess);
  }

  // ---- the run that fills them ----

  lemma StartJoins(cfg: Config, n: nat)
    requires cfg.total > 0 && n < cfg.maxSessions
    ensures Started(cfg, Crowd(n, 0, cfg.limits.head), n, 0) == Crowd(n + 1, 0, cfg.limits.head)
  {
    hide Crowd, Retained;
    var ss := Crowd(n, 0, cfg.limits.head);
    CrowdRetains(n, 0, cfg.limits.head);
    assert !Full(cfg, ss);
    assert !HasId(ss, n);
    assert ss + [Member(n, false, cfg.limits.head)] == Crowd(n + 1, 0, cfg.limits.head);
  }

  lemma FirstOutput(l: Limits)
    requires l.Valid()
    ensures AppendView(l, EmptyView, Letters(l.head)) == View(Letters(l.head), [], 0, true)
  {
    var data := Letters(l.head);
    assert FloorCut(data, |data|) == |data|;
    assert [] + data[..|data|] == data;
  }

  lemma {:induction false} FindMember(n: nat, k: nat, head: nat, id: nat)
    requires id < n
    ensures Find(Crowd(n, k, head), id) == Some(Member(id, id < k, head))
  {
    hide Crowd, Letters;
    if id < n - 1 {
      assert Crowd(n, k, head)[..n - 1] == Crowd(n - 1, k, head);
      FindMember(n - 1, k, head, id);
    }
  }

  lemma FillStep(cfg: Config, n: nat, k: nat)
    requires cfg.limits.Valid() && k < n
    requires AllValid(cfg, Crowd(n, k, cfg.limits.head))
    ensures Appended(cfg, Crowd(n, k, cfg.limits.head), k, Letters(cfg.limits.head)) == Crowd(n, k + 1, cfg.limits.head)
  {
    hide Crowd, Letters, Enforce, AllValid;
    var head := cfg.limits.head;
    var ss, data := Crowd(n, k, head), Letters(head);
    FindMember(n, k, head, k);
    FirstOutput(cfg.limits);
    var buffer := AppendView(cfg.limits, EmptyView, data);
    assert Change(ss, k, (x: Session) => x.(buffer := buffer)) == Crowd(n, k + 1, head);
    hide AppendView;
    CrowdStays(n, k + 1, head, cfg.total, k);
  }

  lemma RunMore(cfg: Config, ops: seq<Operation>, op: Operation)
    requires cfg.limits.Valid()
    ensures AllValid(cfg, Run(cfg, ops)) && Run(cfg, ops + [op]) == Step(cfg, Run(cfg, ops), op)
  {
    hide Step, Retained, Distinct, AllValid;
    assert (ops + [op])[..|ops|] == ops;
  }

  lemma {:induction false} StartsRun(cfg: Config, n: nat)
    requires cfg.limits.Valid() && cfg.total > 0 && n <= cfg.maxSessions
    ensures Run(cfg, Starts(n)) == Crowd(n, 0, cfg.limits.head)
  {
    if n > 0 {
      hide Run, Started, Crowd;
      assert Starts(n) == Starts(n - 1) + [Start(n - 1, 0)];
      StartsRun(cfg, n - 1);
      RunMore(cfg, Starts(n - 1), Start(n - 1, 0));
      StartJoins(cfg, n - 1);
    }
  }

  lemma {:induction false} FillsRun(cfg: Config, n: nat, k: nat)
    requires cfg.limits.Valid() && cfg.total > 0 && k <= n <= cfg.maxSessions
    ensures Run(cfg, Starts(n) + Fills(k, cfg.limits.head)) == Crowd(n, k, cfg.limits.head)
  {
    hide Run, Crowd, Letters, Appended, AllValid, Inv;
    var head := cfg.limits.head;
    if k == 0 {
      StartsRun(cfg, n);
      assert Starts(n) + Fills(0, head) == Starts(n);
    } else {
      var before, op := Starts(n) + Fills(k - 1, head), Append(k - 1, Letters(head));
      assert Starts(n) + Fills(k, head) == before + [op];
      FillsRun(cfg, n, k - 1);
      RunMore(cfg, before, op);
      FillStep(cfg, n, k - 1);
    }
  }

  /** Unread output stays within the shared budget in every run exactly when the first outputs of
      as many sessions as there may be fit in it. */
  lemma SharedBudgetExact(cfg: Config)
    requires cfg.limits.Valid() && cfg.total > 0
    ensures (forall ops: seq<Operation> :: Retained(Run(cfg, ops)) <= cfg.total) <==>
      cfg.maxSessions * cfg.limits.head <= cfg.total
  {
    hide Run, Retained;
    forall ops: seq<Operation> | cfg.maxSessions * cfg.limits.head <= cfg.total ensures Retained(Run(cfg, ops)) <= cfg.total {
      SharedBudget(cfg, ops);
    }
    FillsRun(cfg, cfg.maxSessions, cfg.maxSessions);
    CrowdRetains(cfg.maxSessions, cfg.maxSessions, cfg.limits.head);
  }
}
