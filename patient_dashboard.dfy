/**
 * The patient's simulated queue position (src/components/patient/PatientDashboard.tsx).
 * The dashboard keeps one `queueData` record and replaces it wholesale: on
 * "join", on "leave", each time the interval fires, and when the
 * "you're next" effect runs. The record updates are the pure functions
 * below; the class holds the record and applies them.
 */
module PatientDashboard {
  import opened Wrappers

  /** The source's comment lists "completed" too, but nothing ever assigns it. */
  datatype PatientStatus = Waiting | Called | Completed

  datatype QueueData = QueueData(
    isInQueue: bool,
    queueNumber: Option<int>,
    patientsAhead: int,
    estimatedWaitTime: int,
    status: PatientStatus)

  /** Minutes of estimated wait per patient ahead. */
  const MinutesPerPatient := 15

  function Max(a: int, b: int): int
  {
    if a < b then b else a
  }

  /** The record the dashboard starts with, and the one "leave queue" restores. */
  function InitialQueueData(): (r: QueueData)
    ensures Consistent(r)
    ensures !TickArmed(r) && !CallDue(r)
  {
    QueueData(false, None, 0, 0, Waiting)
  }

  /**
   * The invariant of every reachable record: counters are non-negative,
   * the wait is 15 minutes per patient ahead, the status is never
   * completed, a queue number in 1..50 is held exactly while in the queue,
   * out of the queue everything is reset, and a patient with someone ahead
   * is still waiting.
   */
  predicate Consistent(d: QueueData)
  {
    d.patientsAhead >= 0 &&
    d.estimatedWaitTime == MinutesPerPatient * d.patientsAhead &&
    d.status != Completed &&
    (d.isInQueue <==> d.queueNumber.Some?) &&
    (d.queueNumber.Some? ==> 1 <= d.queueNumber.value <= 50) &&
    (!d.isInQueue ==> d.patientsAhead == 0 && d.status == Waiting) &&
    (d.patientsAhead > 0 ==> d.status == Waiting)
  }

  /** The guard under which the interval is installed, so under which it fires. */
  predicate TickArmed(d: QueueData)
  {
    d.isInQueue && d.patientsAhead > 0
  }

  /** The guard of the "you're next" effect. */
  predicate CallDue(d: QueueData)
  {
    d.isInQueue && d.patientsAhead == 0
  }

  /**
   * `joinQueue`. `queueDraw` and `aheadDraw` stand for
   * `Math.floor(Math.random() * 50)` and `Math.floor(Math.random() * 8)`.
   */
  function Joined(queueDraw: int, aheadDraw: int): (r: QueueData)
    requires 0 <= queueDraw < 50 && 0 <= aheadDraw < 8
    ensures Consistent(r)
    ensures r.isInQueue && r.status == Waiting
    ensures r.queueNumber.Some? && 1 <= r.queueNumber.value <= 50
    ensures 1 <= r.patientsAhead <= 8 && r.estimatedWaitTime == r.patientsAhead * 15
    ensures TickArmed(r) && !CallDue(r)
  {
    var patientsAhead := aheadDraw + 1;
    QueueData(true, Some(queueDraw + 1), patientsAhead, patientsAhead * MinutesPerPatient, Waiting)
  }

  /** One firing of the interval: both counters drop, clamped at zero. */
  function Ticked(d: QueueData): (r: QueueData)
    ensures r.patientsAhead >= 0 && r.estimatedWaitTime >= 0
    ensures r.isInQueue == d.isInQueue && r.queueNumber == d.queueNumber && r.status == d.status
    ensures d.patientsAhead > 0 ==> r.patientsAhead == d.patientsAhead - 1
    ensures d.patientsAhead <= 0 ==> r.patientsAhead == 0
    ensures d.estimatedWaitTime >= MinutesPerPatient ==> r.estimatedWaitTime == d.estimatedWaitTime - MinutesPerPatient
    ensures d.estimatedWaitTime < MinutesPerPatient ==> r.estimatedWaitTime == 0
  {
    d.(patientsAhead := Max(0, d.patientsAhead - 1),
       estimatedWaitTime := Max(0, d.estimatedWaitTime - MinutesPerPatient))
  }

  /** The state update of the "you're next" effect. */
  function MarkCalled(d: QueueData): QueueData
  {
    d.(status := Called)
  }

  /** `n` firings of the interval in a row. */
  function TickN(d: QueueData, n: nat): QueueData
  {
    if n == 0 then d else Ticked(TickN(d, n - 1))
  }

  /** Every update keeps the invariant; the called effect only where it is due. */
  lemma UpdatesPreserveConsistent(d: QueueData)
    requires Consistent(d)
    ensures Consistent(Ticked(d))
    ensures CallDue(d) ==> Consistent(MarkCalled(d))
  {
  }

  /** While armed, `n` firings take exactly `n` patients and `15 * n` minutes off. */
  lemma {:induction false} TickNCount(d: QueueData, n: nat)
    requires Consistent(d) && n <= d.patientsAhead
    ensures TickN(d, n) == d.(patientsAhead := d.patientsAhead - n,
                              estimatedWaitTime := MinutesPerPatient * (d.patientsAhead - n))
  {
    if n > 0 {
      TickNCount(d, n - 1);
    }
  }

  /**
   * From a record in the queue, the interval stays armed for the first
   * `patientsAhead` firings and after exactly that many the called effect
   * is due.
   */
  lemma ExactlyAheadTicks(d: QueueData)
    requires Consistent(d) && d.isInQueue
    ensures forall k: nat :: k < d.patientsAhead ==> TickArmed(TickN(d, k))
    ensures CallDue(TickN(d, d.patientsAhead)) && !TickArmed(TickN(d, d.patientsAhead))
  {
    forall k: nat | k < d.patientsAhead ensures TickArmed(TickN(d, k)) {
      TickNCount(d, k);
    }
    TickNCount(d, d.patientsAhead);
  }

  /**
   * Once called, a record stays put: the interval is not armed, a stray
   * firing changes nothing and the effect is idempotent. Only join and
   * leave move it on.
   */
  lemma CalledIsFinal(d: QueueData)
    requires Consistent(d) && d.status == Called
    ensures d.isInQueue && d.patientsAhead == 0 && d.estimatedWaitTime == 0
    ensures !TickArmed(d) && Ticked(d) == d && MarkCalled(d) == d
  {
  }

  /** The dashboard's `queueData` state. */
  class QueueSimulation {
    var queueData: QueueData

    constructor ()
      ensures queueData == InitialQueueData() && Consistent(queueData)
    {
      queueData := InitialQueueData();
    }

    /** `joinQueue`, with the two random draws passed in. */
    method JoinQueue(queueDraw: int, aheadDraw: int)
      requires 0 <= queueDraw < 50 && 0 <= aheadDraw < 8
      modifies this
      ensures queueData == Joined(queueDraw, aheadDraw) && Consistent(queueData)
    {
      queueData := Joined(queueDraw, aheadDraw);
    }

    /** `leaveQueue`: back to exactly the initial record. */
    method LeaveQueue()
      modifies this
      ensures queueData == InitialQueueData() && Consistent(queueData)
    {
      queueData := InitialQueueData();
    }

    /** One firing of the interval callback. */
    method IntervalFired()
      modifies this
      ensures queueData == Ticked(old(queueData))
      ensures old(Consistent(queueData)) ==> Consistent(queueData)
    {
      if Consistent(queueData) {
        UpdatesPreserveConsistent(queueData);
      }
      queueData := Ticked(queueData);
    }

    /** The "you're next" effect; `notified` records that its toast was shown. */
    method CalledEffect() returns (notified: bool)
      modifies this
      ensures notified == CallDue(old(queueData))
      ensures queueData == if notified then MarkCalled(old(queueData)) else old(queueData)
      ensures old(Consistent(queueData)) ==> Consistent(queueData)
    {
      notified := CallDue(queueData);
      if notified {
        if Consistent(queueData) {
          UpdatesPreserveConsistent(queueData);
        }
        queueData := MarkCalled(queueData);
      }
    }

    /**
     * The interval firing for as long as it is armed, then the effect:
     * from a record in the queue it takes exactly `patientsAhead` firings
     * to be called, and the queue number is kept.
     */
    method RunUntilCalled() returns (ticks: nat)
      requires Consistent(queueData) && queueData.isInQueue
      modifies this
      ensures ticks == old(queueData).patientsAhead
      ensures queueData == old(queueData).(patientsAhead := 0, estimatedWaitTime := 0, status := Called)
      ensures Consistent(queueData)
    {
      ghost var start := queueData;
      ticks := 0;
      while TickArmed(queueData)
        invariant ticks <= start.patientsAhead
        invariant queueData == TickN(start, ticks)
        invariant queueData == start.(patientsAhead := start.patientsAhead - ticks,
                                      estimatedWaitTime := MinutesPerPatient * (start.patientsAhead - ticks))
        decreases queueData.patientsAhead
      {
        IntervalFired();
        ticks := ticks + 1;
        TickNCount(start, ticks);
      }
      var notified := CalledEffect();
    }
  }

  /** Join with one patient ahead, one firing, then the effect: called, no wait left. */
  method OneAheadScenario(queueDraw: int) returns (before: QueueData, after: QueueData)
    requires 0 <= queueDraw < 50
    ensures before.patientsAhead == 1 && before.estimatedWaitTime == 15
    ensures after == before.(patientsAhead := 0, estimatedWaitTime := 0, status := Called)
  {
    var dashboard := new QueueSimulation();
    dashboard.JoinQueue(queueDraw, 0);
    before := dashboard.queueData;
    dashboard.IntervalFired();
    var notified := dashboard.CalledEffect();
    after := dashboard.queueData;
  }
}
