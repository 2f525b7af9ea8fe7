/**
 * Sending a newsletter campaign: newsletter-campaign.processor.ts with
 * iterateSubscribers and materializeRecipients, all under src/newsletter/.
 * A worker may die at any send; the queue then runs the job again.
 */
module Newsletter {
  datatype Subscriber = Subscriber(id: string, email: string)

  datatype Delivery = Pending | Sent | Failed

  /**
   * What happens to one send. Unrecorded: the mail leaves but its status write
   * throws. DiesBefore and DiesAfter: the worker is lost before the mail leaves,
   * or after it left and before any status is written.
   */
  datatype Fate = Delivered | Refused | Unrecorded | DiesBefore | DiesAfter

  /** The recipient rows of one campaign, keyed by email, and the mails that really left. */
  datatype Outbox = Outbox(rows: map<string, Delivery>, mails: map<string, nat>)

  const NEWSLETTER_BATCH_SIZE := 50

  function MailsTo(o: Outbox, email: string): nat {
    if email in o.mails then o.mails[email] else 0
  }

  predicate Mailed(fate: Fate) {
    fate.Delivered? || fate.Unrecorded? || fate.DiesAfter?
  }

  predicate Fatal(fate: Fate) {
    fate.DiesBefore? || fate.DiesAfter?
  }

  function SentTo(o: Outbox, email: string, fate: Fate): Outbox {
    Outbox(if Fatal(fate) then o.rows else o.rows[email := if fate.Delivered? then Sent else Failed],
           if Mailed(fate) then o.mails[email := MailsTo(o, email) + 1] else o.mails)
  }

  /** createMany with skipDuplicates: new emails become pending, known ones keep their row. */
  function Enrolled(o: Outbox, batch: seq<Subscriber>): Outbox {
    o.(rows := (map s: Subscriber | s in batch :: s.email := Pending) + o.rows)
  }

  // ── Runs ───────────────────────────────────────────────────────────────

  datatype Step = Enrol(batch: seq<Subscriber>) | Send(email: string, fate: Fate)

  function Next(o: Outbox, step: Step): Outbox {
    match step
    case Enrol(batch) => Enrolled(o, batch)
    case Send(email, fate) => SentTo(o, email, fate)
  }

  function Run(o: Outbox, steps: seq<Step>): Outbox {
    if steps == [] then o else Next(Run(o, steps[..|steps| - 1]), steps[|steps| - 1])
  }

  predicate Enabled(o: Outbox, step: Step) {
    step.Send? ==> step.email in o.rows && o.rows[step.email].Pending?
  }

  /** Only pending recipients are sent to. */
  predicate Legal(o: Outbox, steps: seq<Step>) {
    steps == [] || (Legal(o, steps[..|steps| - 1]) && Enabled(Run(o, steps[..|steps| - 1]), steps[|steps| - 1]))
  }

  /** How often the worker died between mailing this address and writing its status. */
  function Lost(steps: seq<Step>, email: string): nat {
    if steps == [] then 0
    else Lost(steps[..|steps| - 1], email) + if steps[|steps| - 1] == Send(email, DiesAfter) then 1 else 0
  }

  function Deaths(steps: seq<Step>): nat {
    if steps == [] then 0
    else Deaths(steps[..|steps| - 1]) + if steps[|steps| - 1].Send? && Fatal(steps[|steps| - 1].fate) then 1 else 0
  }

  /** Beyond the mails lost to a crash: one when the row says sent, none while it is pending, one or none when it failed. */
  predicate Tallied(o: Outbox, email: string, lost: nat) {
    var extra := MailsTo(o, email) - lost;
    if email !in o.rows || o.rows[email].Pending? then extra == 0
    else if o.rows[email].Sent? then extra == 1
    else 0 <= extra <= 1
  }

  /** Over any number of attempts an address is mailed at most once more than the crashes that followed its mail. */
  lemma {:induction false} MailsInEveryRun(steps: seq<Step>, email: string)
    requires Legal(Outbox(map[], map[]), steps)
    ensures Tallied(Run(Outbox(map[], map[]), steps), email, Lost(steps, email))
    ensures MailsTo(Run(Outbox(map[], map[]), steps), email) <= Lost(steps, email) + 1
  {
    if steps != [] {
      MailsInEveryRun(steps[..|steps| - 1], email);
    }
  }

  lemma {:induction false} LostAtMostDeaths(steps: seq<Step>, email: string)
    ensures Lost(steps, email) <= Deaths(steps)
  {
    if steps != [] { LostAtMostDeaths(steps[..|steps| - 1], email); }
  }

  lemma {:induction false} RunAppend(o: Outbox, a: seq<Step>, b: seq<Step>)
    ensures Run(o, a + b) == Run(Run(o, a), b)
    ensures Legal(o, a + b) <==> Legal(o, a) && Legal(Run(o, a), b)
    ensures Deaths(a + b) == Deaths(a) + Deaths(b)
  {
    if b == [] {
      assert a + b == a;
    } else {
      assert (a + b)[..|a + b| - 1] == a + b[..|b| - 1];
      RunAppend(o, a, b[..|b| - 1]);
    }
  }

  lemma RunSnoc(o: Outbox, steps: seq<Step>, step: Step)
    ensures Run(o, steps + [step]) == Next(Run(o, steps), step)
    ensures Legal(o, steps + [step]) <==> Legal(o, steps) && Enabled(Run(o, steps), step)
    ensures Deaths(steps + [step]) == Deaths(steps) + if step.Send? && Fatal(step.fate) then 1 else 0
  {
    assert (steps + [step])[..|steps|] == steps;
  }

  /** One send, fate by fate: which mails leave, and what the recipient's row says afterwards. */
  lemma SendOutcome(o: Outbox, email: string, fate: Fate, other: string)
    ensures var o' := SentTo(o, email, fate);
            && MailsTo(o', email) == MailsTo(o, email) + (if fate in {Delivered, Unrecorded, DiesAfter} then 1 else 0)
            && (fate in {DiesBefore, DiesAfter} ==> o'.rows == o.rows)
            && (fate == Delivered ==> o'.rows == o.rows[email := Sent])
            && (fate in {Refused, Unrecorded} ==> o'.rows == o.rows[email := Failed])
            && (other != email ==> MailsTo(o', other) == MailsTo(o, other))
    ensures Fatal(fate) <==> fate in {DiesBefore, DiesAfter}
  {
  }

  /** A send of this kind has happened to the address. */
  ghost predicate Happened(steps: seq<Step>, email: string, fate: Fate) {
    exists i :: 0 <= i < |steps| && steps[i] == Send(email, fate)
  }

  lemma HappenedMore(steps: seq<Step>, email: string, fate: Fate)
    requires steps != []
    ensures Happened(steps, email, fate) <==> Happened(steps[..|steps| - 1], email, fate) || steps[|steps| - 1] == Send(email, fate)
  {
    if Happened(steps[..|steps| - 1], email, fate) {
      var i :| 0 <= i < |steps| - 1 && steps[..|steps| - 1][i] == Send(email, fate);
      assert steps[i] == Send(email, fate);
    }
  }

  /** A row says sent only of an address whose mail was delivered, and failed only of one whose send was refused or went unrecorded. */
  lemma {:induction false} RowsTellTheTruth(steps: seq<Step>, email: string)
    requires Legal(Outbox(map[], map[]), steps)
    ensures var rows := Run(Outbox(map[], map[]), steps).rows;
            && (email in rows && rows[email] == Sent <==> Happened(steps, email, Delivered))
            && (email in rows && rows[email] == Failed <==> Happened(steps, email, Refused) || Happened(steps, email, Unrecorded))
  {
    if steps != [] {
      RowsTellTheTruth(steps[..|steps| - 1], email);
      HappenedMore(steps, email, Delivered);
      HappenedMore(steps, email, Refused);
      HappenedMore(steps, email, Unrecorded);
    }
  }

  // ── Paging ─────────────────────────────────────────────────────────────

  function Flattened(batches: seq<seq<Subscriber>>): seq<Subscriber> {
    if batches == [] then [] else Flattened(batches[..|batches| - 1]) + batches[|batches| - 1]
  }

  /** Pages of an audience that does not change meanwhile: its rows, each once and in order. */
  method IterateSubscribers(audience: seq<Subscriber>, batchSize: nat) returns (batches: seq<seq<Subscriber>>)
    requires batchSize > 0
    ensures Flattened(batches) == audience
    ensures forall i :: 0 <= i < |batches| ==> 0 < |batches[i]| <= batchSize
  {
    batches := [];
    var offset := 0;
    while true
      invariant 0 <= offset <= |audience| && Flattened(batches) == audience[..offset]
      invariant forall i :: 0 <= i < |batches| ==> 0 < |batches[i]| <= batchSize
      decreases |audience| - offset
    {
      var batch := audience[offset..if offset + batchSize < |audience| then offset + batchSize else |audience|];
      if |batch| == 0 { break; }
      assert (batches + [batch])[..|batches|] == batches;
      assert audience[..offset + |batch|] == audience[..offset] + batch;
      batches := batches + [batch];
      offset := offset + |batch|;
    }
    assert audience[..offset] == audience;
  }

  // ── The worker ─────────────────────────────────────────────────────────

  function Waiting(rows: map<string, Delivery>): set<string> {
    set e | e in rows && rows[e].Pending?
  }

  class CampaignWorker {
    var rows: map<string, Delivery>
    var mails: map<string, nat>

    function View(): Outbox
      reads this
    {
      Outbox(rows, mails)
    }

    constructor ()
      ensures View() == Outbox(map[], map[])
    {
      rows, mails := map[], map[];
    }

    method MaterializeRecipients(audience: seq<Subscriber>) returns (ghost trace: seq<Step>)
      modifies this`rows
      ensures Legal(old(View()), trace) && View() == Run(old(View()), trace) && Deaths(trace) == 0
      ensures rows.Keys == old(rows.Keys) + set s: Subscriber | s in audience :: s.email
      ensures forall e :: e in rows ==> rows[e] == if e in old(rows) then old(rows[e]) else Pending
    {
      var batches := IterateSubscribers(audience, 200);
      trace := [];
      for n := 0 to |batches|
        invariant Legal(old(View()), trace) && View() == Run(old(View()), trace) && Deaths(trace) == 0
        invariant rows.Keys == old(rows.Keys) + set s: Subscriber | s in Flattened(batches[..n]) :: s.email
        invariant forall e :: e in rows ==> rows[e] == if e in old(rows) then old(rows[e]) else Pending
      {
        assert batches[..n + 1][..n] == batches[..n];
        assert Flattened(batches[..n + 1]) == Flattened(batches[..n]) + batches[n];
        rows := (map s: Subscriber | s in batches[n] :: s.email := Pending) + rows;
        RunSnoc(old(View()), trace, Enrol(batches[n]));
        trace := trace + [Enrol(batches[n])];
      }
      assert batches[..|batches|] == batches;
    }

    /** Any choice of at most a batch of pending recipients. */
    method TakePending() returns (batch: seq<string>)
      ensures |batch| <= 50 && (batch == [] <==> Waiting(rows) == {})
      ensures forall i :: 0 <= i < |batch| ==> batch[i] in Waiting(rows)
      ensures forall i, j :: 0 <= i < j < |batch| ==> batch[i] != batch[j]
    {
      var left := Waiting(rows);
      batch := [];
      while left != {} && |batch| < NEWSLETTER_BATCH_SIZE
        invariant |batch| <= NEWSLETTER_BATCH_SIZE && (batch == [] ==> left == Waiting(rows))
        invariant left <= Waiting(rows)
        invariant forall i :: 0 <= i < |batch| ==> batch[i] in Waiting(rows) && batch[i] !in left
        invariant forall i, j :: 0 <= i < j < |batch| ==> batch[i] != batch[j]
      {
        var e :| e in left;
        batch := batch + [e];
        left := left - {e};
      }
      assert batch != [] ==> batch[0] in Waiting(rows);
    }

    method SendToRecipient(email: string, fate: Fate) returns (alive: bool)
      modifies this
      ensures View() == SentTo(old(View()), email, fate) && alive == !Fatal(fate)
    {
      if fate.DiesBefore? { return false; }
      if fate.Refused? {
        rows := rows[email := Failed];
        return true;
      }
      mails := mails[email := MailsTo(View(), email) + 1];
      if fate.DiesAfter? { return false; }
      rows := rows[email := if fate.Unrecorded? then Failed else Sent];
      return true;
    }

    /** Sends to a batch in turn; a lost worker leaves the rest as it is. */
    method SendBatch(batch: seq<string>, fates: nat -> Fate, sends: nat) returns (alive: bool, ghost trace: seq<Step>)
      requires forall i :: 0 <= i < |batch| ==> batch[i] in Waiting(rows)
      requires forall i, j :: 0 <= i < j < |batch| ==> batch[i] != batch[j]
      modifies this
      ensures Legal(old(View()), trace) && View() == Run(old(View()), trace)
      ensures Deaths(trace) == (if alive then 0 else 1) && rows.Keys == old(rows.Keys)
      ensures alive ==> Waiting(rows) <= old(Waiting(rows)) && forall i :: 0 <= i < |batch| ==> batch[i] !in Waiting(rows)
    {
      trace := [];
      for k := 0 to |batch|
        invariant Legal(old(View()), trace) && View() == Run(old(View()), trace) && Deaths(trace) == 0
        invariant rows.Keys == old(rows.Keys) && Waiting(rows) <= old(Waiting(rows))
        invariant forall i :: 0 <= i < |batch| ==> (batch[i] in Waiting(rows) <==> k <= i)
      {
        RunSnoc(old(View()), trace, Send(batch[k], fates(sends + k)));
        trace := trace + [Send(batch[k], fates(sends + k))];
        alive := SendToRecipient(batch[k], fates(sends + k));
        if !alive { return; }
      }
      return true, trace;
    }

    /**
     * One attempt of the job. It ends; unless the worker is lost on the way, it
     * leaves nobody of the audience pending. `fates` is what befalls the n-th send.
     */
    method Process(audience: seq<Subscriber>, fates: nat -> Fate) returns (done: bool, ghost trace: seq<Step>)
      modifies this
      ensures Legal(old(View()), trace) && View() == Run(old(View()), trace)
      ensures Deaths(trace) == if done then 0 else 1
      ensures forall s :: s in audience ==> s.email in rows
      ensures done ==> Waiting(rows) == {}
    {
      trace := MaterializeRecipients(audience);
      ghost var everyone := rows.Keys;
      assert forall s :: s in audience ==> s.email in everyone;
      var sends: nat := 0;
      while true
        invariant Legal(old(View()), trace) && View() == Run(old(View()), trace) && Deaths(trace) == 0
        invariant rows.Keys == everyone
        decreases |Waiting(rows)|
      {
        var batch := TakePending();
        if |batch| == 0 { break; }
        ghost var before := Waiting(rows);
        var alive, sent := SendBatch(batch, fates, sends);
        RunAppend(old(View()), trace, sent);
        trace := trace + sent;
        if !alive { return false, trace; }
        sends := sends + |batch|;
        WaitingShrinks(before, Waiting(rows), batch[0]);
      }
      return true, trace;
    }
  }

  lemma WaitingShrinks(before: set<string>, after: set<string>, e: string)
    requires after <= before && e in before && e !in after
    ensures |after| < |before|
  {
    assert before == (before - {e}) + {e};
    Subset(after, before - {e});
  }

  lemma {:induction false} Subset(a: set<string>, b: set<string>)
    requires a <= b
    ensures |a| <= |b|
  {
    if a != {} {
      var e :| e in a;
      Subset(a - {e}, b - {e});
    }
  }

  // ── Attempts ───────────────────────────────────────────────────────────

  /** The steps of successive attempts of one job. */
  function Joined(attempts: seq<seq<Step>>): seq<Step> {
    if attempts == [] then [] else Joined(attempts[..|attempts| - 1]) + attempts[|attempts| - 1]
  }

  lemma {:induction false} DeathsOfAttempts(attempts: seq<seq<Step>>)
    requires forall i :: 0 <= i < |attempts| ==> Deaths(attempts[i]) <= 1
    ensures Deaths(Joined(attempts)) <= |attempts|
  {
    if attempts != [] {
      DeathsOfAttempts(attempts[..|attempts| - 1]);
      RunAppend(Outbox(map[], map[]), Joined(attempts[..|attempts| - 1]), attempts[|attempts| - 1]);
    }
  }

  /** When the last of n attempts goes through, nobody was mailed more than n times. */
  lemma MailsWithinAttempts(attempts: seq<seq<Step>>, email: string)
    requires attempts != [] && Legal(Outbox(map[], map[]), Joined(attempts))
    requires forall i :: 0 <= i < |attempts| ==> Deaths(attempts[i]) <= 1
    requires Deaths(attempts[|attempts| - 1]) == 0
    ensures MailsTo(Run(Outbox(map[], map[]), Joined(attempts)), email) <= |attempts|
  {
    var earlier, last := attempts[..|attempts| - 1], attempts[|attempts| - 1];
    DeathsOfAttempts(earlier);
    RunAppend(Outbox(map[], map[]), Joined(earlier), last);
    LostAtMostDeaths(Joined(attempts), email);
    MailsInEveryRun(Joined(attempts), email);
  }
}
