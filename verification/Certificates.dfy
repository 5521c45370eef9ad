/**
 The webhook certificate: issued by Vault PKI, written to three files in a fixed order and renewed in an endless loop.
 A file holds the number of the issue it came from; file writes are atomic. Times are whole nanoseconds.
 */
module Certificates {
  import opened Basics
  import opened Cluster

  // ---------------------------------------------------------------------- files

  /** Which issue the key, the CA chain and the certificate on disk come from. */
  datatype Disk = Disk(key: nat, ca: nat, cert: nat)

  /** The certificate is never newer than the CA chain, nor the CA chain than the key. */
  predicate Ordered(d: Disk, issued: nat) {
    d.cert <= d.ca <= d.key <= issued
  }

  predicate Matching(d: Disk) {
    d.cert == d.ca == d.key
  }

  /** What can go wrong in one issue: Vault, the directory and the three writes. */
  datatype Faults = Faults(vault: Outcome, mkdir: bool, key: Outcome, ca: Outcome, cert: Outcome)

  predicate Succeeds(f: Faults) {
    f.vault == Acked && f.mkdir && f.key == Acked && f.ca == Acked && f.cert == Acked
  }

  /** The certificate file is replaced, whatever is reported. */
  predicate Renews(f: Faults) {
    f.vault == Acked && f.mkdir && f.key == Acked && f.ca == Acked && f.cert != Dropped
  }

  class VaultPKIManager {
    const lifetime: int                  // of the certificates that Vault issues
    const renewalBuffer: int
    var issued: nat                      // issues so far, those whose answer was lost included
    var disk: Disk
    var now: int
    var notAfter: int                    // of the certificate on disk
    ghost var disks: seq<Disk>           // after every file write

    ghost predicate Valid()
      reads this
    {
      && Ordered(disk, issued)
      && disks != [] && disks[|disks| - 1] == disk
      && forall i :: 0 <= i < |disks| ==> Ordered(disks[i], issued)
    }

    /** A manager over whatever an earlier process left behind. */
    constructor (lifetime: int, renewalBuffer: int, issued: nat, disk: Disk, now: int, notAfter: int)
      requires Ordered(disk, issued)
      ensures Valid() && disks == [disk] && this.disk == disk && this.issued == issued
      ensures this.lifetime == lifetime && this.renewalBuffer == renewalBuffer && this.now == now
              && this.notAfter == notAfter
    {
      this.lifetime, this.renewalBuffer, this.issued, this.disk := lifetime, renewalBuffer, issued, disk;
      this.now, this.notAfter, this.disks := now, notAfter, [disk];
    }

    method WriteFile(d: Disk, o: Outcome) returns (ok: bool)
      requires Valid() && Ordered(d, issued)
      modifies this`disk, this`disks
      ensures Valid() && ok == (o == Acked) && disk == (if o == Dropped then old(disk) else d)
      ensures disks == if o == Dropped then old(disks) else old(disks) + [d]
    {
      if o != Dropped {
        disk, disks := d, disks + [d];
      }
      ok := o == Acked;
    }

    /** Key, then CA chain, then certificate; the first failure ends it. */
    method WritePKICertFiles(generation: nat, f: Faults) returns (ok: bool)
      requires Valid() && generation == issued && disk.key < generation
      modifies this`disk, this`disks, this`notAfter
      ensures Valid() && ok == (f.key == Acked && f.ca == Acked && f.cert == Acked)
      ensures old(disks) <= disks && disk == DiskAfter(old(disk), generation, f)
      ensures notAfter == if disk.cert == generation then now + lifetime else old(notAfter)
      ensures forall i {:trigger disks[i]} :: |old(disks)| <= i < |disks| && disks[i].cert != disks[i - 1].cert ==>
                Matching(disks[i])
    {
      ok := WriteFile(disk.(key := generation), f.key);
      if !ok {
        return;
      }
      ok := WriteFile(disk.(ca := generation), f.ca);
      if !ok {
        return;
      }
      ok := WriteFile(disk.(cert := generation), f.cert);
      if f.cert != Dropped {
        notAfter := now + lifetime;
      }
    }

    method IssueCertificateAndWriteToDisk(f: Faults) returns (ok: bool)
      requires Valid()
      modifies this`issued, this`disk, this`disks, this`notAfter
      // The order holds after every single write, so also after a crash between two of them.
      ensures Valid() && old(disks) <= disks
      ensures ok == Succeeds(f)
      ensures issued == old(issued) + (if f.vault == Dropped then 0 else 1)
      ensures disk == if f.vault == Acked && f.mkdir then DiskAfter(old(disk), issued, f) else old(disk)
      ensures notAfter == if Renews(f) then now + lifetime else old(notAfter)
      // Whoever reloads on a change of the certificate file finds its own key and CA chain.
      ensures forall i {:trigger disks[i]} :: |old(disks)| <= i < |disks| && disks[i].cert != disks[i - 1].cert ==>
                Matching(disks[i])
    {
      if f.vault != Dropped {
        issued := issued + 1;
      }
      if f.vault != Acked {
        return false;
      }
      if !f.mkdir {
        return false;
      }
      ok := WritePKICertFiles(issued, f);
    }

    /** The end of the certificate on disk lies the buffer after the renewal time, so after it if there is a buffer. */
    method CalculateRenewalTime(readable: bool) returns (renewAt: Option<int>)
      ensures renewAt.Some? <==> readable
      ensures readable ==> renewAt.value + renewalBuffer == notAfter
      ensures readable ==> (renewAt.value < notAfter <==> renewalBuffer > 0)
    {
      renewAt := if readable then Some(notAfter - renewalBuffer) else None;
    }

    /** One turn of the loop: sleep until renewal is due, or a minute if it is overdue, then try to issue. */
    method RenewalTurn(e: Turn) returns (attempt: Option<Attempt>)
      requires Valid()
      modifies this
      ensures Valid() && old(disks) <= disks
      ensures e.Unreadable? ==>
                attempt == None && now == old(now) + MINUTE && notAfter == old(notAfter) && disk == old(disk)
      ensures e.Try? ==>
                && attempt == Some(Attempt(now, old(notAfter)))
                && now == old(now) + Sleep(old(notAfter) - old(now), renewalBuffer)
                && notAfter == if Renews(e.faults) then now + lifetime else old(notAfter)
    {
      var renewAt := CalculateRenewalTime(e.Try?);
      if renewAt.None? {
        now := now + MINUTE;
        return None;
      }
      var sleepDuration := renewAt.value - now;
      if sleepDuration <= 0 {
        sleepDuration := MINUTE;
      }
      now := now + sleepDuration;
      attempt := Some(Attempt(now, notAfter));
      var ok := IssueCertificateAndWriteToDisk(e.faults);
    }

    /** The loop, for as many turns as it lives; the log says when it tried and what certificate it found. */
    method RenewalLoop(turns: seq<Turn>) returns (log: seq<Option<Attempt>>)
      requires Valid()
      modifies this
      ensures Valid() && old(disks) <= disks
      ensures |log| == |turns|
      // Starting from a new certificate whose file stays readable: every attempt comes at its time, and finds an
      // expired certificate exactly if too many attempts in a row have failed before it.
      ensures old(notAfter) == old(now) + lifetime && lifetime > 0 && (forall e :: e in turns ==> e.Try?) ==>
                forall i :: 0 <= i < |turns| ==>
                  && log[i].Some?
                  && (log[i].value.at >= log[i].value.notAfter
                      <==> FailuresBefore(turns, i) >= Tolerated(lifetime, renewalBuffer))
    {
      hide Valid, Tolerated, FailuresBefore;
      log := [];
      ghost var isFresh := notAfter == now + lifetime && lifetime > 0 && forall e :: e in turns ==> e.Try?;
      NoFailuresAtFirst(turns);
      for k := 0 to |turns|
        invariant Valid() && old(disks) <= disks && |log| == k
        invariant isFresh ==> now - (notAfter - lifetime) == Elapsed(lifetime, renewalBuffer, FailuresBefore(turns, k))
        invariant isFresh ==>
                    forall i :: 0 <= i < k ==>
                      && log[i].Some?
                      && (log[i].value.at >= log[i].value.notAfter
                          <==> FailuresBefore(turns, i) >= Tolerated(lifetime, renewalBuffer))
      {
        assert turns[k] in turns;
        FailuresStep(turns, k);
        if isFresh {
          NextAttempt(lifetime, renewalBuffer, FailuresBefore(turns, k));
          AttemptsBeforeExpiry(lifetime, renewalBuffer, FailuresBefore(turns, k) + 1);
        }
        var attempt := RenewalTurn(turns[k]);
        log := log + [attempt];
      }
    }
  }

  /** The files after a series of writes that stops at the first failure. */
  function DiskAfter(d: Disk, generation: nat, f: Faults): Disk {
    if f.key == Dropped then d
    else if f.key == LostAck || f.ca == Dropped then d.(key := generation)
    else if f.ca == LostAck || f.cert == Dropped then d.(key := generation, ca := generation)
    else Disk(generation, generation, generation)
  }

  /**
   When certificate, CA chain and key match after an issue that reached the disk: if the certificate was written, or if
   nothing was written and they matched before. So a failed issue that got as far as the key leaves an old certificate
   beside a new key until an issue succeeds.
   */
  lemma MatchingAfterIssue(d: Disk, generation: nat, f: Faults)
    requires Ordered(d, generation) && d.key < generation
    ensures Ordered(DiskAfter(d, generation, f), generation)
    ensures Matching(DiskAfter(d, generation, f))
            <==> (f.key == Acked && f.ca == Acked && f.cert != Dropped) || (f.key == Dropped && Matching(d))
  {
  }

  // --------------------------------------------------------------------- renewal

  const MINUTE: int := 60_000_000_000

  datatype Turn = Unreadable | Try(faults: Faults)

  /** When an attempt was made, and the end of the certificate then on disk. */
  datatype Attempt = Attempt(at: int, notAfter: int)

  function Sleep(remaining: int, buffer: int): int {
    if remaining - buffer <= 0 then MINUTE else remaining - buffer
  }

  /**
   The next attempt comes before the certificate on disk expires exactly if there is a buffer and either it has not
   begun or more than a minute of the certificate is left.
   */
  lemma DueBeforeTheEnd(remaining: int, buffer: int)
    requires remaining > 0
    ensures Sleep(remaining, buffer) < remaining <==> buffer > 0 && (remaining > buffer || remaining > MINUTE)
  {
  }

  /** Failed attempts in a row right before attempt i. */
  function FailuresBefore(turns: seq<Turn>, i: nat): nat
    requires i <= |turns|
  {
    if i == 0 || (turns[i - 1].Try? && Renews(turns[i - 1].faults)) then 0 else FailuresBefore(turns, i - 1) + 1
  }

  lemma NoFailuresAtFirst(turns: seq<Turn>)
    ensures FailuresBefore(turns, 0) == 0
  {
  }

  lemma FailuresStep(turns: seq<Turn>, i: nat)
    requires i < |turns|
    ensures FailuresBefore(turns, i + 1)
            == if turns[i].Try? && Renews(turns[i].faults) then 0 else FailuresBefore(turns, i) + 1
  {
  }

  /** Time since the certificate was issued when the k-th attempt is made, all before it having failed; 0 for none. */
  function Elapsed(lifetime: int, buffer: int, k: nat): int {
    if k == 0 then 0
    else if lifetime > buffer then lifetime - buffer + (k - 1) * MINUTE
    else k * MINUTE
  }

  function CeilDiv(x: int, y: int): int
    requires y > 0
  {
    if x <= 0 then 0 else (x + y - 1) / y
  }

  /** How many failed attempts in a row a certificate survives. */
  function Tolerated(lifetime: int, buffer: int): int {
    if lifetime > buffer then CeilDiv(buffer, MINUTE) else CeilDiv(lifetime, MINUTE) - 1
  }

  lemma NextAttempt(lifetime: int, buffer: int, k: nat)
    ensures Elapsed(lifetime, buffer, k + 1)
            == Elapsed(lifetime, buffer, k) + Sleep(lifetime - Elapsed(lifetime, buffer, k), buffer)
  {
  }

  /** The tolerance bound: of the attempts of a certificate, exactly the first `Tolerated` come before it expires. */
  lemma AttemptsBeforeExpiry(lifetime: int, buffer: int, k: nat)
    requires lifetime > 0 && k >= 1
    ensures Elapsed(lifetime, buffer, k) < lifetime <==> k <= Tolerated(lifetime, buffer)
  {
    var x := if lifetime > buffer then buffer else lifetime;
    CeilDivCounts(x, MINUTE, if lifetime > buffer then k - 1 else k);
  }

  /** Below x there are CeilDiv(x, y) multiples of y, 0 included. */
  lemma CeilDivCounts(x: int, y: int, k: nat)
    requires y > 0
    ensures k * y < x <==> k < CeilDiv(x, y)
  {
    if x > 0 {
      var q := (x + y - 1) / y;
      assert q * y <= x + y - 1 < q * y + y;
      if k < q {
        MultiplyOrder(k, q - 1, y);
      } else {
        MultiplyOrder(q, k, y);
      }
    } else {
      MultiplyOrder(0, k, y);
    }
  }

  lemma MultiplyOrder(a: int, b: int, y: int)
    requires a <= b && y > 0
    ensures a * y <= b * y
  {
  }

  // ------------------------------------------------------------------------ lock

  /** An issue in progress: its number, and how many of the three files it has written. */
  datatype Writer = Nobody | Issuing(generation: nat, written: nat)

  datatype Locked = Locked(disk: Disk, issued: nat, writer: Writer, readers: nat)

  datatype Step =
    | LockForIssue | WriteNext(outcome: Outcome) | Unlock          // an issue, which may let go at any point
    | LockForRead | ReadCertificate | UnlockRead
    | Crash

  predicate Enabled(s: Locked, step: Step) {
    match step
    case LockForIssue => s.writer.Nobody? && s.readers == 0
    case WriteNext(_) => s.writer.Issuing? && s.writer.written < 3
    case Unlock => s.writer.Issuing?
    case LockForRead => s.writer.Nobody?
    case ReadCertificate => s.readers > 0
    case UnlockRead => s.readers > 0
    case Crash => true
  }

  function Written(d: Disk, w: Writer): Disk
    requires w.Issuing? && w.written < 3
  {
    if w.written == 0 then d.(key := w.generation)
    else if w.written == 1 then d.(ca := w.generation)
    else d.(cert := w.generation)
  }

  function Next(s: Locked, step: Step): Locked
    requires Enabled(s, step)
  {
    match step
    case LockForIssue => s.(issued := s.issued + 1, writer := Issuing(s.issued + 1, 0))
    case WriteNext(o) =>
      var d := if o == Dropped then s.disk else Written(s.disk, s.writer);
      var next := if o == Acked then s.writer.written + 1 else 3;
      s.(disk := d, writer := s.writer.(written := next))
    case Unlock => s.(writer := Nobody)
    case LockForRead => s.(readers := s.readers + 1)
    case ReadCertificate => s
    case UnlockRead => s.(readers := s.readers - 1)
    case Crash => s.(writer := Nobody, readers := 0)
  }

  /** Any interleaving of any number of issues, readers and crashes. */
  ghost predicate Run(states: seq<Locked>, steps: seq<Step>) {
    && |states| == |steps| + 1
    && forall i :: 0 <= i < |steps| ==> Enabled(states[i], steps[i]) && states[i + 1] == Next(states[i], steps[i])
  }

  /** Readers exclude an issue, and the order holds throughout. */
  predicate LockInvariant(s: Locked) {
    && Ordered(s.disk, s.issued)
    && (s.readers > 0 ==> s.writer.Nobody?)
    && (s.writer.Issuing? ==>
        && s.writer.generation == s.issued
        && (s.writer.written == 0 ==> s.disk.key < s.issued)
        && (s.writer.written == 1 ==> s.disk.key == s.issued)
        && (s.writer.written == 2 ==> s.disk.key == s.issued == s.disk.ca))
  }

  lemma StepKeepsInvariant(s: Locked, step: Step)
    requires LockInvariant(s) && Enabled(s, step)
    ensures LockInvariant(Next(s, step))
  {
  }

  lemma {:induction false} InvariantThroughout(states: seq<Locked>, steps: seq<Step>, i: nat)
    requires Run(states, steps) && LockInvariant(states[0]) && i <= |steps|
    ensures LockInvariant(states[i])
  {
    if i > 0 {
      hide LockInvariant, Enabled, Next;
      InvariantThroughout(states, steps, i - 1);
      StepKeepsInvariant(states[i - 1], steps[i - 1]);
    }
  }

  /** Where the last issue before i ended, by itself or in a crash; 0 if none has. */
  function LastEnd(steps: seq<Step>, i: nat): (j: nat)
    requires i <= |steps|
    ensures j <= i && (j > 0 ==> steps[j - 1].Unlock? || steps[j - 1].Crash?)
  {
    if i == 0 || steps[i - 1].Unlock? || steps[i - 1].Crash? then i else LastEnd(steps, i - 1)
  }

  lemma {:induction false} SettledBetweenIssues(states: seq<Locked>, steps: seq<Step>, i: nat)
    requires Run(states, steps) && LockInvariant(states[0]) && i <= |steps| && states[i].writer.Nobody?
    ensures states[i].disk == states[LastEnd(steps, i)].disk
  {
    if i > 0 && !steps[i - 1].Unlock? && !steps[i - 1].Crash? {
      assert Enabled(states[i - 1], steps[i - 1]) && states[i] == Next(states[i - 1], steps[i - 1]);
      SettledBetweenIssues(states, steps, i - 1);
    }
  }

  /**
   In every interleaving the files are in order at every moment, and whoever reads the certificate under the lock sees
   the files as the last issue left them, never the middle of one.
   */
  lemma ReadersSeeWholeIssues(states: seq<Locked>, steps: seq<Step>, i: nat)
    requires Run(states, steps) && LockInvariant(states[0]) && i <= |steps|
    ensures Ordered(states[i].disk, states[i].issued)
    ensures i < |steps| && steps[i].ReadCertificate? ==>
              states[i].writer.Nobody? && states[i].disk == states[LastEnd(steps, i)].disk
  {
    InvariantThroughout(states, steps, i);
    if i < |steps| && steps[i].ReadCertificate? {
      assert Enabled(states[i], steps[i]);
      SettledBetweenIssues(states, steps, i);
    }
  }

  // -------------------------------------------------- the lock and the file writes

  /** The steps of an issue that got its certificate and directory: one write after the other until one fails. */
  function IssueSteps(f: Faults): seq<Step> {
    if f.key != Acked then [LockForIssue, WriteNext(f.key), Unlock]
    else if f.ca != Acked then [LockForIssue, WriteNext(f.key), WriteNext(f.ca), Unlock]
    else [LockForIssue, WriteNext(f.key), WriteNext(f.ca), WriteNext(f.cert), Unlock]
  }

  /** All steps can be taken in a row; `AfterSteps` is the state they lead to. */
  ghost predicate CanTake(s: Locked, steps: seq<Step>)
    decreases |steps|
  {
    steps == [] || (Enabled(s, steps[0]) && CanTake(Next(s, steps[0]), steps[1..]))
  }

  ghost function AfterSteps(s: Locked, steps: seq<Step>): Locked
    requires CanTake(s, steps)
    decreases |steps|
  {
    if steps == [] then s else AfterSteps(Next(s, steps[0]), steps[1..])
  }

  lemma TakeFirst(s: Locked, step: Step, rest: seq<Step>, steps: seq<Step>)
    requires Enabled(s, step) && CanTake(Next(s, step), rest) && steps == [step] + rest
    ensures CanTake(s, steps) && AfterSteps(s, steps) == AfterSteps(Next(s, step), rest)
  {
    assert steps[1..] == rest;
  }

  /** An issue as the manager does it, file by file, is a run of the lock's machine and leaves the same files. */
  lemma IssueIsALockedRun(s: Locked, f: Faults)
    requires s.writer.Nobody? && s.readers == 0
    ensures CanTake(s, IssueSteps(f))
    ensures AfterSteps(s, IssueSteps(f)) == Locked(DiskAfter(s.disk, s.issued + 1, f), s.issued + 1, Nobody, 0)
  {
    var s1 := Next(s, LockForIssue);
    var s2 := Next(s1, WriteNext(f.key));
    hide CanTake, AfterSteps;
    if f.key != Acked {
      UnlockEnds(s2);
      TakeFirst(s1, WriteNext(f.key), [Unlock], [WriteNext(f.key), Unlock]);
      TakeFirst(s, LockForIssue, [WriteNext(f.key), Unlock], IssueSteps(f));
    } else {
      var s3 := Next(s2, WriteNext(f.ca));
      var rest := if f.ca != Acked then [Unlock] else [WriteNext(f.cert), Unlock];
      if f.ca != Acked {
        UnlockEnds(s3);
      } else {
        UnlockEnds(Next(s3, WriteNext(f.cert)));
        TakeFirst(s3, WriteNext(f.cert), [Unlock], rest);
      }
      TakeFirst(s2, WriteNext(f.ca), rest, [WriteNext(f.ca)] + rest);
      TakeFirst(s1, WriteNext(f.key), [WriteNext(f.ca)] + rest, [WriteNext(f.key), WriteNext(f.ca)] + rest);
      TakeFirst(s, LockForIssue, [WriteNext(f.key), WriteNext(f.ca)] + rest, IssueSteps(f));
    }
  }

  lemma UnlockEnds(s: Locked)
    requires s.writer.Issuing?
    ensures CanTake(s, [Unlock]) && AfterSteps(s, [Unlock]) == s.(writer := Nobody)
  {
    assert [Unlock][1..] == [];
  }
}
