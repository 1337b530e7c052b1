/**
 The sender's books over whole runs: conservation of sequences, one activity per pending packet,
 and the transmission budget.
 */
module SenderBooks {
  import opened Serial
  import opened ReceiveWindow
  import opened ReliableChannel
  import opened ReliableEndpoint

  lemma SubmitAccounts(e: Endpoint, p: Packet)
    requires SenderInv(e) && Enabled(e, Submit(p)) && |e.submitted| + 1 < RANGE
    ensures NextSequence(e.channel) == |e.submitted| + 1
    ensures Numbered(Apply(e, Submit(p))) && Accounted(Apply(e, Submit(p))) && Copies(Apply(e, Submit(p)))
  {
    hide OneActivityEach, Budgeted;
    var e' := Apply(e, Submit(p));
    forall s: Word, q: Packet | CopyOf(q, s, e.submitted) ensures CopyOf(q, s, e'.submitted) {
      assert e'.submitted[s - 1] == e.submitted[s - 1];
    }
  }

  /** Every activity and every copy before the send is still there after it; the new packet has one. */
  lemma SubmitAppends(e: Endpoint, p: Packet, t: Word)
    requires SenderInv(e) && Enabled(e, Submit(p)) && |e.submitted| + 1 < RANGE
    ensures Distinct(Apply(e, Submit(p)).activities)
    ensures Works(Apply(e, Submit(p)).activities, t) <==> t == |e.submitted| + 1 || Works(e.activities, t)
    ensures Copied(Apply(e, Submit(p)), t) == if t == |e.submitted| + 1 then 1 else Copied(e, t)
  {
    hide Copies, Accounted;
    var s := |e.submitted| + 1;
    SubmitAccounts(e, p);
    assert Copied(e, s) == 0;
    assert !Works(e.activities, s);
    AppendedActivity(e.activities, Transmitting(s, Stamped(e.channel, p)), t);
  }

  lemma SubmitActivities(e: Endpoint, p: Packet)
    requires SenderInv(e) && Enabled(e, Submit(p)) && |e.submitted| + 1 < RANGE
    ensures OneActivityEach(Apply(e, Submit(p)))
  {
    hide Copies, Accounted, Budgeted, Copied, Works, Distinct;
    SubmitAccounts(e, p);
    var e' := Apply(e, Submit(p));
    forall t: Word ensures Works(e'.activities, t) <==> t == |e.submitted| + 1 || Works(e.activities, t) {
      SubmitAppends(e, p, t);
    }
    SubmitAppends(e, p, |e.submitted| + 1);
  }

  lemma SubmitBudget(e: Endpoint, p: Packet)
    requires SenderInv(e) && Enabled(e, Submit(p)) && |e.submitted| + 1 < RANGE
    ensures Budgeted(Apply(e, Submit(p)))
  {
    hide Copies, Copied, Works, OneActivityEach;
    SubmitAccounts(e, p);
    var e' := Apply(e, Submit(p));
    forall t: Word ensures Copied(e', t) == if t == |e.submitted| + 1 then 1 else Copied(e, t) {
      SubmitAppends(e, p, t);
    }
  }

  lemma SubmitKeeps(e: Endpoint, p: Packet)
    requires SenderInv(e) && Enabled(e, Submit(p)) && |e.submitted| + 1 < RANGE
    ensures SenderInv(Apply(e, Submit(p)))
  {
    SubmitAccounts(e, p);
    SubmitActivities(e, p);
    SubmitBudget(e, p);
    hide Numbered, Accounted, Copies, OneActivityEach, Budgeted, Apply;
  }

  lemma TransmitKeeps(e: Endpoint, i: nat)
    requires SenderInv(e) && Enabled(e, Transmit(i))
    ensures SenderInv(Apply(e, Transmit(i)))
  {
    var e' := Apply(e, Transmit(i));
    var s := e.activities[i].sequence;
    forall t: Word
      ensures Works(e'.activities, t) <==> Works(e.activities, t)
      ensures Copied(e', t) == Copied(e, t)
    {
      ReplacedActivity(e.activities, i, Queued(s), t);
    }
    ReplacedActivity(e.activities, i, Queued(s), s);
  }

  lemma ArmKeeps(e: Endpoint, i: nat)
    requires SenderInv(e) && Enabled(e, Arm(i))
    ensures SenderInv(Apply(e, Arm(i)))
  {
    var e' := Apply(e, Arm(i));
    var a := Armed(e.activities[i].sequence, e.limit);
    forall t: Word
      ensures Works(e'.activities, t) <==> Works(e.activities, t)
      ensures Copied(e', t) == Copied(e, t)
    {
      ReplacedActivity(e.activities, i, a, t);
    }
    ReplacedActivity(e.activities, i, a, a.sequence);
  }

  lemma FireAccounts(e: Endpoint, i: nat)
    requires SenderInv(e) && Enabled(e, Fire(i))
    ensures Numbered(Apply(e, Fire(i))) && Accounted(Apply(e, Fire(i))) && Copies(Apply(e, Fire(i)))
  {
    hide Budgeted, Works;
    var e' := Apply(e, Fire(i));
    if !Resends(e.channel, e.activities[i].sequence, e.activities[i].limit) {
      forall k | 0 <= k < |e'.activities|
        ensures e'.activities[k] == e.activities[if k < i then k else k + 1]
      {
      }
    }
  }

  lemma ResendReplaces(e: Endpoint, i: nat, t: Word)
    requires Distinct(e.activities) && Enabled(e, Fire(i))
    requires Resends(e.channel, e.activities[i].sequence, e.activities[i].limit)
    ensures Distinct(Apply(e, Fire(i)).activities)
    ensures Works(Apply(e, Fire(i)).activities, t) <==> Works(e.activities, t)
    ensures Copied(Apply(e, Fire(i)), t) == Copied(e, t) + if t == e.activities[i].sequence then 1 else 0
  {
    var s := e.activities[i].sequence;
    ReplacedActivity(e.activities, i, Transmitting(s, Apply(e, Fire(i)).channel.pending[s].packet), t);
  }

  lemma ResendActivities(e: Endpoint, i: nat)
    requires SenderInv(e) && Enabled(e, Fire(i))
    requires Resends(e.channel, e.activities[i].sequence, e.activities[i].limit)
    ensures OneActivityEach(Apply(e, Fire(i))) && Budgeted(Apply(e, Fire(i)))
  {
    hide Copies, Accounted, Works, Copied, Distinct;
    var e' := Apply(e, Fire(i));
    forall t: Word
      ensures Works(e'.activities, t) <==> Works(e.activities, t)
      ensures Copied(e', t) == Copied(e, t) + if t == e.activities[i].sequence then 1 else 0
    {
      ResendReplaces(e, i, t);
    }
    ResendReplaces(e, i, e.activities[i].sequence);
  }

  lemma GiveUpActivities(e: Endpoint, i: nat)
    requires SenderInv(e) && Enabled(e, Fire(i))
    requires !Resends(e.channel, e.activities[i].sequence, e.activities[i].limit)
    ensures OneActivityEach(Apply(e, Fire(i))) && Budgeted(Apply(e, Fire(i)))
  {
    hide Copies, Accounted;
    var e' := Apply(e, Fire(i));
    var s := e.activities[i].sequence;
    ReplacedActivity(e.activities, i, e.activities[i], s);
    forall t: Word
      ensures Works(e'.activities, t) <==> t != s && Works(e.activities, t)
      ensures Copied(e', t) == Copied(e, t)
    {
      RemovedActivity(e.activities, i, t);
    }
    RemovedActivity(e.activities, i, s);
    forall k | 0 <= k < |e'.activities|
      ensures e'.activities[k] == e.activities[if k < i then k else k + 1]
    {
    }
    hide Works, Copied;
  }

  lemma FireKeeps(e: Endpoint, i: nat)
    requires SenderInv(e) && Enabled(e, Fire(i))
    ensures SenderInv(Apply(e, Fire(i)))
  {
    FireAccounts(e, i);
    if Resends(e.channel, e.activities[i].sequence, e.activities[i].limit) {
      ResendActivities(e, i);
    } else {
      GiveUpActivities(e, i);
    }
    hide Numbered, Accounted, Copies, OneActivityEach, Budgeted, Apply;
  }

  lemma HearAckKeeps(e: Endpoint, h: Header)
    requires SenderInv(e)
    ensures SenderInv(Apply(e, HearAck(h)))
  {
    hide IsSequenceAcked;
    var e' := Apply(e, HearAck(h));
    assert forall t: Word :: Copied(e', t) == Copied(e, t);
  }

  lemma ReceiverEventKeeps(e: Endpoint, ev: Event)
    requires SenderInv(e) && Enabled(e, ev) && (ev.HearData? || ev.EmitAck? || ev.Configure?)
    ensures SenderInv(Apply(e, ev))
  {
    hide Advance, Classify;
    var e' := Apply(e, ev);
    assert forall t: Word :: Copied(e', t) == Copied(e, t);
  }

  /** Every event keeps the sender's books, as long as the sequence counter does not wrap. */
  lemma EventKeepsBooks(e: Endpoint, ev: Event)
    requires SenderInv(e) && Enabled(e, ev) && |Apply(e, ev).submitted| < RANGE
    ensures SenderInv(Apply(e, ev))
  {
    hide SenderInv;
    match ev
    case Submit(p) => SubmitKeeps(e, p);
    case Transmit(i) => TransmitKeeps(e, i);
    case Arm(i) => ArmKeeps(e, i);
    case Fire(i) => FireKeeps(e, i);
    case HearAck(h) => HearAckKeeps(e, h);
    case _ => ReceiverEventKeeps(e, ev);
  }

  lemma {:induction false} SubmittedGrows(e: Endpoint, evs: seq<Event>)
    requires Runs(e, evs)
    ensures |e.submitted| <= |Run(e, evs).submitted|
    decreases |evs|
  {
    hide Advance, Classify, OnTimer, OnAck, OnSend;
    if evs != [] { SubmittedGrows(Apply(e, evs[0]), evs[1..]); }
  }

  lemma {:induction false} RunKeepsBooks(e: Endpoint, evs: seq<Event>)
    requires SenderInv(e) && Runs(e, evs) && |Run(e, evs).submitted| < RANGE
    ensures SenderInv(Run(e, evs))
    decreases |evs|
  {
    hide SenderInv, Apply, Enabled;
    if evs != [] {
      SubmittedGrows(Apply(e, evs[0]), evs[1..]);
      EventKeepsBooks(e, evs[0]);
      RunKeepsBooks(Apply(e, evs[0]), evs[1..]);
    }
  }

  // ---------------------------------------------------------------- conservation and budget

  /**
   Conservation: after any run, a sequence was handed out if and only if it is in one of the
   three tables, and it is in no two of them.
   */
  lemma Conservation(port: Port, limit: Attempts, evs: seq<Event>, s: Word)
    requires limit >= 1 && Runs(Initial(port, limit), evs)
    requires |Run(Initial(port, limit), evs).submitted| < RANGE
    ensures var e := Run(Initial(port, limit), evs);
            && (1 <= s <= |e.submitted| <==> s in e.channel.pending || s in e.acked || s in e.expired)
            && !(s in e.channel.pending && s in e.acked)
            && !(s in e.channel.pending && s in e.expired)
            && !(s in e.acked && s in e.expired)
  {
    InitialSender(port, limit);
    RunKeepsBooks(Initial(port, limit), evs);
  }

  /** A pending packet has one and only one coroutine looking after it. */
  lemma OneActivityPerPending(port: Port, limit: Attempts, evs: seq<Event>, s: Word)
    requires limit >= 1 && Runs(Initial(port, limit), evs)
    requires |Run(Initial(port, limit), evs).submitted| < RANGE
    requires s in Run(Initial(port, limit), evs).channel.pending
    ensures var activities := Run(Initial(port, limit), evs).activities;
            exists i :: 0 <= i < |activities| && activities[i].sequence == s
                        && forall j :: 0 <= j < |activities| && activities[j].sequence == s ==> j == i
  {
    hide Run, Runs, Initial, Accounted, Copies, Budgeted, Numbered, Works, Distinct;
    InitialSender(port, limit);
    RunKeepsBooks(Initial(port, limit), evs);
    TheOneActivity(Run(Initial(port, limit), evs).activities, s);
  }

  lemma TheOneActivity(activities: seq<Activity>, s: Word)
    requires Distinct(activities) && Works(activities, s)
    ensures exists i :: 0 <= i < |activities| && activities[i].sequence == s
                        && forall j :: 0 <= j < |activities| && activities[j].sequence == s ==> j == i
  {
    var i :| 0 <= i < |activities| && activities[i].sequence == s;
    forall j | 0 <= j < |activities| && activities[j].sequence == s ensures j == i {
      assert !(i < j) && !(j < i);
    }
  }

  /**
   A limit is configured for the timers that start afterwards: 0 means 1, a timer keeps what it read
   when it started, and everything else about the channel is as it was.
   */
  lemma ConfigureReachesLaterTimers(e: Endpoint, n: Attempts, i: nat)
    requires Enabled(e, Arm(i))
    ensures var c := Apply(e, Configure(n));
            && c.limit == (if n == 0 then 1 else n) && c.activities == e.activities && c.channel == e.channel
            && Enabled(c, Arm(i))
            && Apply(c, Arm(i)).activities
                 == e.activities[i := Armed(e.activities[i].sequence, if n == 0 then 1 else n)]
            && Apply(c, Arm(i)).channel == e.channel
  {
  }

  predicate LimitsWithin(evs: seq<Event>, most: Attempts) {
    forall k :: 0 <= k < |evs| && evs[k].Configure? ==> AtLeastOne(evs[k].maxAttempts) <= most
  }

  lemma {:induction false} HighestLimitWithin(e: Endpoint, evs: seq<Event>, most: Attempts)
    requires Runs(e, evs) && e.highestLimit <= most && LimitsWithin(evs, most)
    ensures Run(e, evs).highestLimit <= most
    decreases |evs|
  {
    hide Advance, Classify, OnTimer, OnAck, OnSend;
    if evs != [] {
      assert forall k :: 0 <= k < |evs[1..]| ==> evs[1..][k] == evs[k + 1];
      HighestLimitWithin(Apply(e, evs[0]), evs[1..], most);
    }
  }

  /** With every limit in force at most `most`, no packet is transmitted more than `most` times. */
  lemma TransmissionBudget(port: Port, limit: Attempts, evs: seq<Event>, most: Attempts, s: Word)
    requires 1 <= limit <= most && Runs(Initial(port, limit), evs) && LimitsWithin(evs, most)
    requires |Run(Initial(port, limit), evs).submitted| < RANGE
    ensures Run(Initial(port, limit), evs).transmitted[s] <= most
  {
    var e := Initial(port, limit);
    InitialSender(port, limit);
    RunKeepsBooks(e, evs);
    HighestLimitWithin(e, evs, most);
    assert Copied(Run(e, evs), s) <= Run(e, evs).highestLimit;
  }

  lemma SameSubmitted(e: Endpoint, ev: Event)
    requires Enabled(e, ev) && !ev.Submit?
    ensures Apply(e, ev).submitted == e.submitted
  {
  }
}
