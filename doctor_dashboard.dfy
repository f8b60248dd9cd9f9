/**
 * The doctor's roster: a fixed list of five seeded queue entries whose
 * statuses move waiting -> called -> completed, the "current patient" being
 * seen, and the waiting/completed/total statistics shown on the dashboard
 * (src/components/doctor/DoctorDashboard.tsx).
 */
module DoctorDashboard {
  import opened Wrappers

  datatype Status = Waiting | Called | Completed

  datatype QueueEntry = QueueEntry(id: int, name: string, queueNumber: int, joinTime: string, status: Status)

  datatype QueueStats = QueueStats(waiting: nat, completed: nat, total: nat)

  /** The seed list the dashboard starts from; every entry is waiting. */
  function SeedRoster(): (r: seq<QueueEntry>)
    ensures |r| == 5 && UniqueIds(r)
    ensures forall k :: 0 <= k < |r| ==> r[k].status == Waiting && r[k].queueNumber == k + 1
  {
    [ QueueEntry(1, "John Smith", 1, "09:30 AM", Waiting),
      QueueEntry(2, "Sarah Johnson", 2, "09:45 AM", Waiting),
      QueueEntry(3, "Mike Davis", 3, "10:00 AM", Waiting),
      QueueEntry(4, "Emily Brown", 4, "10:15 AM", Waiting),
      QueueEntry(5, "Robert Wilson", 5, "10:30 AM", Waiting) ]
  }

  predicate UniqueIds(s: seq<QueueEntry>)
  {
    forall i, j :: 0 <= i < j < |s| ==> s[i].id != s[j].id
  }

  /** `s` is the seed list with at most the statuses rewritten. */
  predicate SeedShape(s: seq<QueueEntry>)
  {
    |s| == |SeedRoster()| &&
    forall k :: 0 <= k < |s| ==> s[k] == SeedRoster()[k].(status := s[k].status)
  }

  /** Position of a status in the forward order waiting < called < completed. */
  function Rank(st: Status): nat
  {
    match st
    case Waiting => 0
    case Called => 1
    case Completed => 2
  }

  /** `t` is `s` with some statuses moved forward and nothing else changed. */
  predicate Advances(s: seq<QueueEntry>, t: seq<QueueEntry>)
  {
    |s| == |t| &&
    forall k :: 0 <= k < |s| ==> t[k] == s[k].(status := t[k].status) && Rank(s[k].status) <= Rank(t[k].status)
  }

  /**
   * `queueList.find(p => p.status === "waiting")`, as the index of the
   * entry found: the lowest index whose entry is waiting, if any.
   */
  function FirstWaiting(s: seq<QueueEntry>): (r: Option<nat>)
    ensures r.Some? ==> r.value < |s| && s[r.value].status == Waiting
    ensures r.Some? ==> forall j :: 0 <= j < r.value ==> s[j].status != Waiting
    ensures r.None? ==> forall j :: 0 <= j < |s| ==> s[j].status != Waiting
  {
    if s == [] then None
    else if s[0].status == Waiting then Some(0)
    else match FirstWaiting(s[1..])
      case None => None
      case Some(k) => Some(k + 1)
  }

  /**
   * `list.map(p => p.id === id ? { ...p, status: st } : p)`: every entry
   * carrying `id` gets status `st`, every other entry is kept.
   */
  function SetStatusById(s: seq<QueueEntry>, id: int, st: Status): (r: seq<QueueEntry>)
    ensures |r| == |s|
    ensures forall k :: 0 <= k < |s| && s[k].id == id ==> r[k] == s[k].(status := st)
    ensures forall k :: 0 <= k < |s| && s[k].id != id ==> r[k] == s[k]
  {
    if s == [] then []
    else [if s[0].id == id then s[0].(status := st) else s[0]] + SetStatusById(s[1..], id, st)
  }

  /** `list.filter(p => p.status === st).length` */
  function CountStatus(s: seq<QueueEntry>, st: Status): (r: nat)
    ensures r <= |s|
  {
    if s == [] then 0
    else (if s[0].status == st then 1 else 0) + CountStatus(s[1..], st)
  }

  /** `getQueueStats()` over a given list. */
  function Stats(s: seq<QueueEntry>): (r: QueueStats)
    ensures r.total == |s| && r.waiting <= r.total && r.completed <= r.total
  {
    QueueStats(CountStatus(s, Waiting), CountStatus(s, Completed), |s|)
  }

  lemma SeedShapeUniqueIds(s: seq<QueueEntry>)
    requires SeedShape(s)
    ensures UniqueIds(s)
  {
  }

  /** With unique ids, the map by id rewrites exactly one entry. */
  lemma SetStatusByIdAt(s: seq<QueueEntry>, i: nat, st: Status)
    requires UniqueIds(s) && i < |s|
    ensures SetStatusById(s, s[i].id, st) == s[i := s[i].(status := st)]
  {
  }

  /** Replacing one entry changes a status count by what left and what came in. */
  lemma {:induction false} CountUpdate(s: seq<QueueEntry>, i: nat, e: QueueEntry, st: Status)
    requires i < |s|
    ensures CountStatus(s[i := e], st) + (if s[i].status == st then 1 else 0)
         == CountStatus(s, st) + (if e.status == st then 1 else 0)
  {
    if i > 0 {
      CountUpdate(s[1..], i - 1, e, st);
      assert s[i := e][1..] == s[1..][i - 1 := e];
    } else {
      assert s[i := e][1..] == s[1..];
    }
  }

  /** The statistics never count more entries than there are. */
  lemma {:induction false} StatsBound(s: seq<QueueEntry>)
    ensures Stats(s).waiting + Stats(s).completed <= Stats(s).total
  {
    if s != [] {
      StatsBound(s[1..]);
    }
  }

  /**
   * The "Next Patient" buttons are enabled exactly when `find` would
   * succeed: `stats.waiting === 0` holds iff no entry is waiting.
   */
  lemma {:induction false} WaitingCountFindsEntry(s: seq<QueueEntry>)
    ensures Stats(s).waiting > 0 <==> FirstWaiting(s).Some?
  {
    if s != [] {
      WaitingCountFindsEntry(s[1..]);
    }
  }

  /** A successful call lowers the waiting count by one and keeps the rest. */
  lemma CallNextStats(s: seq<QueueEntry>, i: nat)
    requires UniqueIds(s) && FirstWaiting(s) == Some(i)
    ensures Stats(SetStatusById(s, s[i].id, Called)).(waiting := Stats(s).waiting) == Stats(s)
    ensures Stats(SetStatusById(s, s[i].id, Called)).waiting + 1 == Stats(s).waiting
  {
    SetStatusByIdAt(s, i, Called);
    CountUpdate(s, i, s[i].(status := Called), Waiting);
    CountUpdate(s, i, s[i].(status := Called), Completed);
  }

  /** Completing a called entry raises the completed count by one and keeps the rest. */
  lemma CompleteStats(s: seq<QueueEntry>, i: nat)
    requires UniqueIds(s) && i < |s| && s[i].status == Called
    ensures Stats(SetStatusById(s, s[i].id, Completed))
         == Stats(s).(completed := Stats(s).completed + 1)
  {
    SetStatusByIdAt(s, i, Completed);
    CountUpdate(s, i, s[i].(status := Completed), Waiting);
    CountUpdate(s, i, s[i].(status := Completed), Completed);
  }

  /** Rewriting one waiting or called entry's status forward keeps the seed shape and advances the list. */
  lemma StepAdvances(s: seq<QueueEntry>, i: nat, st: Status)
    requires SeedShape(s) && i < |s| && Rank(s[i].status) <= Rank(st)
    ensures SeedShape(s[i := s[i].(status := st)])
    ensures Advances(s, s[i := s[i].(status := st)])
  {
  }

  lemma AdvancesTransitive(s: seq<QueueEntry>, t: seq<QueueEntry>, u: seq<QueueEntry>)
    requires Advances(s, t) && Advances(t, u)
    ensures Advances(s, u)
  {
  }

  /**
   * The dashboard's roster state: `queueList` and `currentPatient`.
   * `currentPatient` holds the entry object as `find` returned it, so its
   * own status is still "waiting" while the list entry says "called".
   */
  class Roster {
    var queueList: seq<QueueEntry>
    var currentPatient: Option<QueueEntry>

    /** The current patient, if any, is the list entry of its id, which is called. */
    ghost predicate CurrentIsCalled()
      reads this
    {
      currentPatient.Some? ==>
        currentPatient.value.status == Waiting &&
        exists k :: 0 <= k < |queueList| && queueList[k] == currentPatient.value.(status := Called)
    }

    ghost predicate Valid()
      reads this
    {
      SeedShape(queueList) && CurrentIsCalled()
    }

    constructor ()
      ensures Valid()
      ensures queueList == SeedRoster() && currentPatient == None
    {
      queueList := SeedRoster();
      currentPatient := None;
    }

    /** `getQueueStats()` */
    function GetQueueStats(): (r: QueueStats)
      reads this
      requires Valid()
      ensures r.total == 5
      ensures r.waiting + r.completed <= r.total
    {
      StatsBound(queueList);
      Stats(queueList)
    }

    /** The `disabled={stats.waiting === 0}` guard of the two call buttons, negated. */
    function CanCallNext(): (r: bool)
      reads this
      requires Valid()
      ensures r <==> exists k :: 0 <= k < |queueList| && queueList[k].status == Waiting
    {
      WaitingCountFindsEntry(queueList);
      GetQueueStats().waiting != 0
    }

    /**
     * `callNextPatient`: the first waiting entry becomes current and is
     * marked called; with none waiting nothing changes. An existing current
     * patient is not checked: it is replaced and its entry stays called.
     */
    method CallNextPatient()
      requires Valid()
      modifies this
      ensures Valid()
      ensures Advances(old(queueList), queueList)
      ensures match FirstWaiting(old(queueList))
        case None => queueList == old(queueList) && currentPatient == old(currentPatient)
        case Some(i) =>
          currentPatient == Some(old(queueList)[i]) &&
          queueList == old(queueList)[i := old(queueList)[i].(status := Called)] &&
          GetQueueStats().waiting + 1 == old(GetQueueStats()).waiting &&
          GetQueueStats().(waiting := old(GetQueueStats()).waiting) == old(GetQueueStats())
    {
      match FirstWaiting(queueList)
      case None =>
      case Some(i) =>
        var nextPatient := queueList[i];
        SeedShapeUniqueIds(queueList);
        SetStatusByIdAt(queueList, i, Called);
        CallNextStats(queueList, i);
        StepAdvances(queueList, i, Called);
        currentPatient := Some(nextPatient);
        queueList := SetStatusById(queueList, nextPatient.id, Called);
        assert queueList[i] == currentPatient.value.(status := Called);
    }

    /**
     * `completeConsultation`: the current patient's entry is marked
     * completed and current is cleared; with no current patient nothing
     * changes.
     */
    method CompleteConsultation()
      requires Valid()
      modifies this
      ensures Valid()
      ensures currentPatient == None
      ensures Advances(old(queueList), queueList)
      ensures old(currentPatient).None? ==> queueList == old(queueList)
      ensures old(currentPatient).Some? ==>
        exists i :: 0 <= i < |queueList| &&
          old(queueList)[i] == old(currentPatient).value.(status := Called) &&
          queueList == old(queueList)[i := old(queueList)[i].(status := Completed)] &&
          GetQueueStats() == old(GetQueueStats()).(completed := old(GetQueueStats()).completed + 1)
    {
      if currentPatient.Some? {
        var id := currentPatient.value.id;
        var i :| 0 <= i < |queueList| && queueList[i] == currentPatient.value.(status := Called);
        SeedShapeUniqueIds(queueList);
        SetStatusByIdAt(queueList, i, Completed);
        CompleteStats(queueList, i);
        StepAdvances(queueList, i, Completed);
        queueList := SetStatusById(queueList, id, Completed);
        currentPatient := None;
      }
    }
  }

  /**
   * A fresh roster: "call next" takes entry #1, completing it leaves four
   * waiting, one completed, five in all, and over both steps no status
   * has moved backwards.
   */
  method CallThenCompleteScenario() returns (first: QueueEntry, stats: QueueStats, final: seq<QueueEntry>)
    ensures first == SeedRoster()[0]
    ensures stats == QueueStats(4, 1, 5)
    ensures Advances(SeedRoster(), final)
  {
    var roster := new Roster();
    assert roster.GetQueueStats() == QueueStats(5, 0, 5);
    roster.CallNextPatient();
    first := roster.currentPatient.value;
    ghost var afterCall := roster.queueList;
    roster.CompleteConsultation();
    stats := roster.GetQueueStats();
    final := roster.queueList;
    AdvancesTransitive(SeedRoster(), afterCall, final);
  }
}
