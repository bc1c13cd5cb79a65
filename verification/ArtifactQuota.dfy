/** Exported file snapshots: the space they are charged for, and when a snapshot is removed. */
module ArtifactQuotas {

  datatype Removal = Idle | Started | Gone

  /** `charge` is the size of the snapshot and 4096 bytes more. */
  datatype Record = Record(charge: nat, readers: nat, retired: bool, removal: Removal)

  /** `exports` are the charges of the exports under way; a settled one is 0. */
  datatype State = State(limit: nat, used: int, exports: seq<nat>, records: seq<Record>, closed: bool)

  function Start(limit: nat): State {
    State(limit, 0, [], [], false)
  }

  /** `#remove`: a file with readers stays, and one removal at a time. */
  function Remove(r: Record): Record {
    if r.readers > 0 || r.removal != Idle then r else r.(removal := Started)
  }

  /** `#retire` */
  function Retire(r: Record): Record {
    Remove(r.(retired := true))
  }

  /** One record in `#sweep`: expired ones retire, and a removal that failed is tried again. */
  function Swept(r: Record, expired: bool): Record {
    var a := if expired && !r.retired then Retire(r) else r;
    if a.retired then Remove(a) else a
  }


  datatype Event =
    | ExportCharges(size: nat)
    | ExportCommits(x: nat)
    | ExportFails(x: nat)
    | ReadStarts(r: nat, expired: bool)
    | ReadEnds(r: nat)
    | Retires(r: nat)
    | RemovalEnds(r: nat, ok: bool)
    | Sweeps(stale: set<nat>)
    | Closes
    | CloseRetires

  /** The quota check and the charge of one export are one step. */
  function Charge(s: State, size: nat): State {
    if s.closed || size + 4096 > s.limit - s.used then s
    else s.(used := s.used + size + 4096, exports := s.exports + [size + 4096])
  }

  /** The charge moves to the new record; an export that a close has aborted gives it back. */
  function Commit(s: State, x: nat): State
    requires x < |s.exports|
  {
    if s.exports[x] == 0 then s
    else if s.closed then Fail(s, x)
    else s.(exports := s.exports[x := 0], records := s.records + [Record(s.exports[x], 0, false, Idle)])
  }

  function Fail(s: State, x: nat): State
    requires x < |s.exports|
  {
    s.(exports := s.exports[x := 0], used := s.used - s.exports[x])
  }

  /** `#use` after its read budget: the record must still be valid. */
  function Read(s: State, r: nat, expired: bool): State
    requires r < |s.records|
  {
    var a := if expired then Retire(s.records[r]) else s.records[r];
    s.(records := s.records[r := if a.retired || s.closed then a else a.(readers := a.readers + 1)])
  }

  function EndRead(s: State, r: nat): State
    requires r < |s.records|
  {
    var a := s.records[r];
    if a.readers == 0 then s
    else
      var b := a.(readers := a.readers - 1);
      s.(records := s.records[r := if b.retired then Remove(b) else b])
  }

  /** The file system answered: the space returns, or the next sweep tries again. */
  function EndRemoval(s: State, r: nat, ok: bool): State
    requires r < |s.records|
  {
    var a := s.records[r];
    if a.removal != Started then s
    else if ok then s.(used := s.used - a.charge, records := s.records[r := a.(removal := Gone)])
    else s.(records := s.records[r := a.(removal := Idle)])
  }

  function SweptAll(records: seq<Record>, expired: set<nat>): (r: seq<Record>)
    ensures |r| == |records|
  {
    seq(|records|, i requires 0 <= i < |records| => Swept(records[i], i in expired))
  }

  function RetiredAll(records: seq<Record>): (r: seq<Record>)
    ensures |r| == |records|
  {
    seq(|records|, i requires 0 <= i < |records| => if records[i].removal == Gone then records[i] else Retire(records[i]))
  }

  predicate Quiet(s: State) {
    (forall x :: 0 <= x < |s.exports| ==> s.exports[x] == 0) && (forall r :: 0 <= r < |s.records| ==> s.records[r].readers == 0)
  }

  function Step(s: State, ev: Event): State {
    match ev
    case ExportCharges(size) => Charge(s, size)
    case ExportCommits(x) => if x < |s.exports| then Commit(s, x) else s
    case ExportFails(x) => if x < |s.exports| then Fail(s, x) else s
    case ReadStarts(r, expired) => if r < |s.records| then Read(s, r, expired) else s
    case ReadEnds(r) => if r < |s.records| then EndRead(s, r) else s
    case Retires(r) => if r < |s.records| then s.(records := s.records[r := Retire(s.records[r])]) else s
    case RemovalEnds(r, ok) => if r < |s.records| then EndRemoval(s, r, ok) else s
    case Sweeps(stale) => s.(records := SweptAll(s.records, stale))
    case Closes => s.(closed := true)
    case CloseRetires => if s.closed && Quiet(s) then s.(records := RetiredAll(s.records)) else s
  }

  function Run(s: State, events: seq<Event>): State
    decreases |events|
  {
    if events == [] then s else Run(Step(s, events[0]), events[1..])
  }

  // ---- conservation ----

  function Sum(charges: seq<nat>): nat {
    if charges == [] then 0 else Sum(charges[..|charges| - 1]) + charges[|charges| - 1]
  }

  /** What the snapshots on disk are charged for. */
  function Live(records: seq<Record>): nat {
    if records == [] then 0 else Live(records[..|records| - 1]) + Owed(records[|records| - 1])
  }

  function Owed(r: Record): nat {
    if r.removal == Gone then 0 else r.charge
  }

  /** A file that is being removed, or is gone, is retired and has no readers. */
  predicate Safe(r: Record) {
    r.removal != Idle ==> r.retired && r.readers == 0
  }

  predicate AllSafe(records: seq<Record>) {
    forall i :: 0 <= i < |records| ==> Safe(records[i])
  }

  predicate Inv(s: State) {
    s.used == Sum(s.exports) + Live(s.records) && s.used <= s.limit && AllSafe(s.records)
  }

  lemma SumAppend(charges: seq<nat>, c: nat)
    ensures Sum(charges + [c]) == Sum(charges) + c
  {
    assert (charges + [c])[..|charges|] == charges;
  }

  lemma {:induction false} SumUpdate(charges: seq<nat>, x: nat, c: nat)
    requires x < |charges|
    ensures Sum(charges[x := c]) + charges[x] == Sum(charges) + c
  {
    var n := |charges| - 1;
    if x < n {
      assert charges[x := c][..n] == charges[..n][x := c];
      SumUpdate(charges[..n], x, c);
    } else {
      assert charges[x := c][..n] == charges[..n];
    }
  }

  lemma LiveAppend(records: seq<Record>, r: Record)
    ensures Live(records + [r]) == Live(records) + Owed(r)
  {
    assert (records + [r])[..|records|] == records;
  }

  lemma {:induction false} LiveUpdate(records: seq<Record>, i: nat, r: Record)
    requires i < |records|
    ensures Live(records[i := r]) + Owed(records[i]) == Live(records) + Owed(r)
  {
    var n := |records| - 1;
    if i < n {
      assert records[i := r][..n] == records[..n][i := r];
      LiveUpdate(records[..n], i, r);
    } else {
      assert records[i := r][..n] == records[..n];
    }
  }

  lemma {:induction false} LiveSame(a: seq<Record>, b: seq<Record>)
    requires |a| == |b| && forall i :: 0 <= i < |a| ==> Owed(a[i]) == Owed(b[i])
    ensures Live(a) == Live(b)
  {
    if a != [] { LiveSame(a[..|a| - 1], b[..|b| - 1]); }
  }

  lemma ExportKeeps(s: State, ev: Event)
    requires Inv(s) && (ev.ExportCharges? || ev.ExportCommits? || ev.ExportFails?)
    ensures Inv(Step(s, ev))
  {
    hide Sum, Live;
    if ev.ExportCharges? {
      SumAppend(s.exports, ev.size + 4096);
    } else if ev.x < |s.exports| {
      SumUpdate(s.exports, ev.x, 0);
      LiveAppend(s.records, Record(s.exports[ev.x], 0, false, Idle));
    }
  }

  lemma RecordKeeps(s: State, ev: Event)
    requires Inv(s) && (ev.ReadStarts? || ev.ReadEnds? || ev.Retires? || ev.RemovalEnds?)
    ensures Inv(Step(s, ev))
  {
    hide Sum, Live;
    var t := Step(s, ev);
    if ev.r < |s.records| {
      assert t.records == s.records[ev.r := t.records[ev.r]];
      LiveUpdate(s.records, ev.r, t.records[ev.r]);
    }
  }

  lemma StepKeeps(s: State, ev: Event)
    requires Inv(s)
    ensures Inv(Step(s, ev))
  {
    if ev.ExportCharges? || ev.ExportCommits? || ev.ExportFails? {
      hide Step, Inv;
      ExportKeeps(s, ev);
    } else if ev.ReadStarts? || ev.ReadEnds? || ev.Retires? || ev.RemovalEnds? {
      hide Step, Inv;
      RecordKeeps(s, ev);
    } else {
      hide Sum, Live;
      if ev.Sweeps? { LiveSame(s.records, SweptAll(s.records, ev.stale)); }
      if ev.CloseRetires? { LiveSame(s.records, RetiredAll(s.records)); }
    }
  }

  // ---- the promises ----

  lemma {:induction false} RunKeeps(s: State, events: seq<Event>)
    requires Inv(s)
    ensures Inv(Run(s, events))
    decreases |events|
  {
    if events != [] {
      StepKeeps(s, events[0]);
      hide Step, Inv;
      RunKeeps(Step(s, events[0]), events[1..]);
    }
  }

  /** After every run the used bytes are the charges of the exports under way and of the snapshots
      on disk, within the quota; a file whose removal has started has no readers. */
  lemma QuotaConserved(limit: nat, events: seq<Event>)
    ensures var s := Run(Start(limit), events);
      && s.used == Sum(s.exports) + Live(s.records) <= limit
      && forall i :: 0 <= i < |s.records| && s.records[i].removal != Idle ==> s.records[i].readers == 0 && s.records[i].retired
  {
    assert Sum([]) == 0 && Live([]) == 0;
    RunKeeps(Start(limit), events);
    RunLimit(Start(limit), events);
  }

  lemma {:induction false} RunLimit(s: State, events: seq<Event>)
    ensures Run(s, events).limit == s.limit
    decreases |events|
  {
    if events != [] {
      assert Step(s, events[0]).limit == s.limit;
      hide Step;
      RunLimit(Step(s, events[0]), events[1..]);
    }
  }

  /** What happens to one record in a step: a charge never changes, retirement and removal are
      final, and a removal starts only on a retired record without readers. */
  predicate Fate(was: Record, now: Record) {
    && now.charge == was.charge
    && (was.retired ==> now.retired && now.readers <= was.readers)
    && (was.removal == Gone ==> now == was)
    && (was.removal == Idle && now.removal == Started ==> now.retired && now.readers == 0)
    && (now.removal == Gone ==> was.removal == Gone || was.removal == Started)
  }

  lemma StepFate(s: State, ev: Event, i: nat)
    requires Inv(s) && i < |s.records|
    ensures i < |Step(s, ev).records| && Fate(s.records[i], Step(s, ev).records[i])
  {
    hide Sum, Live;
    assert Safe(s.records[i]);
  }

  /** Retiring a record, or its last reader leaving, starts the removal at once. */
  lemma RemovalStarts(s: State, ev: Event, r: nat)
    requires Inv(s) && r < |s.records| && (ev == Retires(r) || (ev == ReadEnds(r) && s.records[r].readers > 0))
    ensures var now := Step(s, ev).records[r]; now.retired && now.readers == 0 ==> now.removal != Idle
  {
    hide Sum, Live;
    assert Safe(s.records[r]);
  }

  /** When nothing is under way and every snapshot is gone, the whole quota is free again. */
  lemma {:induction false} EverythingReturned(s: State)
    requires Inv(s) && (forall x :: 0 <= x < |s.exports| ==> s.exports[x] == 0)
    requires forall r :: 0 <= r < |s.records| ==> s.records[r].removal == Gone
    ensures s.used == 0
  {
    NothingExported(s.exports);
    NothingLive(s.records);
  }

  lemma {:induction false} NothingExported(charges: seq<nat>)
    requires forall x :: 0 <= x < |charges| ==> charges[x] == 0
    ensures Sum(charges) == 0
  {
    if charges != [] { NothingExported(charges[..|charges| - 1]); }
  }

  lemma {:induction false} NothingLive(records: seq<Record>)
    requires forall r :: 0 <= r < |records| ==> records[r].removal == Gone
    ensures Live(records) == 0
  {
    if records != [] { NothingLive(records[..|records| - 1]); }
  }

  // ---- what each event changes ----

  /** No export is under way and nobody reads. */
  predicate AtRest(s: State) {
    && (forall x :: 0 <= x < |s.exports| ==> s.exports[x] == 0)
    && (forall r :: 0 <= r < |s.records| ==> s.records[r].readers == 0)
  }

  predicate Ends(s: State, ev: Event) {
    ev.CloseRetires? && s.closed && AtRest(s)
  }

  /** The event takes the snapshot out of use. */
  predicate TakesOut(s: State, ev: Event, r: nat) {
    ev == Retires(r) || ev == ReadStarts(r, true) || (ev.Sweeps? && r in ev.stale) || Ends(s, ev)
  }

  /** The event looks whether the file of the snapshot can be removed. */
  predicate LooksAt(s: State, ev: Event, r: nat)
    requires r < |s.records|
  {
    TakesOut(s, ev, r) || ev.Sweeps? || (ev == ReadEnds(r) && s.records[r].readers > 0)
  }

  function Count(yes: bool): nat {
    if yes then 1 else 0
  }

  /** A snapshot is taken out of use, read, and removed by exactly these events. A removal starts
      whenever somebody looks at a snapshot out of use without readers, once at a time; it ends it or
      leaves it to the next look. */
  lemma RecordExactly(s: State, ev: Event, r: nat)
    requires Inv(s) && r < |s.records|
    ensures r < |Step(s, ev).records|
    ensures var was, now := s.records[r], Step(s, ev).records[r];
      && now.charge == was.charge
      && (now.retired <==> was.retired || TakesOut(s, ev, r))
      && now.readers == was.readers + Count(ev == ReadStarts(r, false) && !was.retired && !s.closed)
           - Count(ev == ReadEnds(r) && was.readers > 0)
      && now.removal ==
           if ev.RemovalEnds? && ev.r == r && was.removal == Started then (if ev.ok then Gone else Idle)
           else if was.removal == Idle && LooksAt(s, ev, r) && now.retired && now.readers == 0 then Started
           else was.removal
  {
    hide Sum, Live;
    assert Safe(s.records[r]);
  }

  /** The export fits into what is left of the quota of an open service. */
  predicate FitsQuota(s: State, ev: Event) {
    ev.ExportCharges? && !s.closed && s.used + ev.size + 4096 <= s.limit
  }

  predicate UnderWay(s: State, x: nat) {
    x < |s.exports| && s.exports[x] != 0
  }

  /** An export is charged exactly when it fits; its charge goes to the new snapshot or, when it fails
      or the service has closed, back; the charge of a snapshot goes back when its file is gone. */
  lemma ChargesExactly(s: State, ev: Event)
    requires Inv(s)
    ensures var t := Step(s, ev);
      && t.limit == s.limit && (t.closed <==> s.closed || ev.Closes?)
      && t.used == s.used + (if FitsQuota(s, ev) then ev.size + 4096 else 0)
           - (if (ev.ExportFails? || (ev.ExportCommits? && s.closed)) && UnderWay(s, ev.x) then s.exports[ev.x] else 0)
           - (if ev.RemovalEnds? && ev.ok && ev.r < |s.records| && s.records[ev.r].removal == Started then s.records[ev.r].charge else 0)
      && t.exports == (if FitsQuota(s, ev) then s.exports + [ev.size + 4096]
                       else if (ev.ExportFails? || ev.ExportCommits?) && UnderWay(s, ev.x) then s.exports[ev.x := 0] else s.exports)
      && |t.records| == |s.records| + Count(ev.ExportCommits? && !s.closed && UnderWay(s, ev.x))
      && (ev.ExportCommits? && !s.closed && UnderWay(s, ev.x) ==>
            t.records[|s.records|] == Record(s.exports[ev.x], 0, false, Idle))
  {
    hide Sum, Live;
    if ev.ExportFails? && ev.x < |s.exports| && s.exports[ev.x] == 0 { assert s.exports[ev.x := 0] == s.exports; }
  }
}

/** The store as an object. */
module ArtifactStores {
  import opened ArtifactQuotas

  class ArtifactStore {
    const limit: nat
    var usedBytes: int
    var exports: seq<nat>
    var records: seq<Record>
    var closed: bool

    ghost function View(): State
      reads this
    {
      State(limit, usedBytes, exports, records, closed)
    }

    constructor (limit: nat)
      ensures View() == Start(limit)
    {
      this.limit := limit;
      usedBytes, exports, records, closed := 0, [], [], false;
    }

    method RemoveFile(r: nat)
      requires r < |records|
      modifies this`records
      ensures records == old(records)[r := Remove(old(records)[r])]
    {
      if records[r].readers > 0 || records[r].removal != Idle { return; }
      records := records[r := records[r].(removal := Started)];
    }

    method RetireRecord(r: nat)
      requires r < |records|
      modifies this`records
      ensures records == old(records)[r := Retire(old(records)[r])]
    {
      records := records[r := records[r].(retired := true)];
      RemoveFile(r);
    }

    /** `#sweep`: two passes over the records. */
    method Sweep(expired: set<nat>)
      modifies this
      ensures View() == Step(old(View()), Sweeps(expired))
    {
      ghost var was := records;
      var i := 0;
      while i < |records|
        invariant 0 <= i <= |records| == |was|
        invariant View() == old(View()).(records := records)
        invariant forall j :: 0 <= j < |was| ==>
          records[j] == if j < i && j in expired && !was[j].retired then Retire(was[j]) else was[j]
      {
        if i in expired && !records[i].retired { RetireRecord(i); }
        i := i + 1;
      }
      i := 0;
      while i < |records|
        invariant 0 <= i <= |records| == |was|
        invariant View() == old(View()).(records := records)
        invariant forall j :: 0 <= j < |was| ==>
          records[j] == if j < i then Swept(was[j], j in expired)
                        else if j in expired && !was[j].retired then Retire(was[j]) else was[j]
      {
        if records[i].retired && records[i].removal == Idle { RemoveFile(i); }
        i := i + 1;
      }
      assert records == SweptAll(was, expired);
    }

    /** The quota part of `exportFile`. */
    method ChargeExport(size: nat) returns (ok: bool)
      modifies this
      ensures View() == Charge(old(View()), size)
      ensures ok == (!old(closed) && size + 4096 <= limit - old(usedBytes))
    {
      if closed { return false; }
      var charge := size + 4096;
      if charge > limit - usedBytes { return false; }
      usedBytes := usedBytes + charge;
      exports := exports + [charge];
      return true;
    }

    /** The admission of `#use`. */
    method BeginRead(r: nat, expired: bool) returns (ok: bool)
      requires r < |records|
      modifies this
      ensures View() == Read(old(View()), r, expired)
      ensures ok ==> !old(records)[r].retired && records[r].readers == old(records)[r].readers + 1
    {
      if expired { RetireRecord(r); }
      if records[r].retired || closed {
        assert records == records[r := records[r]];
        return false;
      }
      records := records[r := records[r].(readers := records[r].readers + 1)];
      return true;
    }

    /** The `finally` part of `#use`. */
    method FinishRead(r: nat)
      requires r < |records| && records[r].readers > 0
      modifies this
      ensures View() == EndRead(old(View()), r)
    {
      records := records[r := records[r].(readers := records[r].readers - 1)];
      if records[r].retired { RemoveFile(r); }
    }
  }
}
