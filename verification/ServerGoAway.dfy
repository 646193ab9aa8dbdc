/** GOAWAY: after it no client stream is created, its error stays, and it covers every client
    stream there ever was (h2_bundle.go; section 6.8 of RFC 9113). */
module ServerGoAways {
  import opened Foundations
  import opened ServerConns
  import opened ServerEvents
  import opened ServerLoops
  import opened ServerOutputs
  import opened ServerSteps

  ghost predicate Covers(t: Table, n: nat) {
    forall id :: id in t.created ==> id <= n
  }

  /** A GOAWAY that was written, or is about to be, names no ID below that of a client stream. */
  ghost predicate GoingOk(s: Conn) {
    && (s.going.sent.Some? ==> s.going.inGoAway && Covers(s.table, s.going.sent.value))
    && (s.going.needToSend ==> s.going.inGoAway)
    && (Next(s).Some? && Next(s).value.Start? && Next(s).value.wr.write.GoAway? ==>
          s.going.inGoAway && Covers(s.table, Next(s).value.wr.write.maxStreamID))
  }

  /** Once the connection is going away it stays so, the error is kept, and no client stream is
      created. */
  predicate GoingStays(s: Conn, s': Conn) {
    && (s.going.inGoAway ==> s'.going.inGoAway && s'.table.created == s.table.created)
    && (s.going.inGoAway && s.going.code != 0 ==> s'.going.code == s.going.code)
  }

  lemma StepGoing(s: Conn, c: Choice)
    requires CanStep(s) && s.table.maxPush % 2 == 0
    ensures GoingStays(s, Step(s, c))
    ensures Step(s, c).table.created == s.table.created
  {
    if Next(s).Some? {
      DoGoing(Rest(s), Next(s).value, c);
    }
  }

  lemma DoGoing(s: Conn, k: Task, c: Choice)
    requires TaskOk(s.table, k) && s.table.maxPush + 2 !in s.out.sched.queues && s.table.maxPush % 2 == 0
    ensures GoingStays(s, Do(s, k, c)) && Do(s, k, c).table.created == s.table.created
  {
  }

  lemma OnGoing(s: Conn, e: Event)
    requires Ready(s) && forall x :: x in s.out.sched.queues ==> Seen(s.table, x)
    ensures GoingStays(s, On(s, e)) && On(s, e).going == s.going
  {
  }

  lemma GoingStep(s: Conn, c: Choice)
    requires CoreOk(s) && CanStep(s) && GoingOk(s) && Step(s, c).panic == None
    ensures GoingOk(Step(s, c))
  {
    StepGoing(s, c);
    if Next(s).Some? {
      NoStartNext(s, c);
      GoingAfter(Rest(s), Next(s).value, c);
    } else {
      assert s.outer != [] ==> OuterOk(s.outer, 0);
      if Popping(s).Served? {
        DequeueOk(s.table, s.out);
      }
    }
  }

  /** What a call does to the record of the GOAWAY. */
  lemma GoingAfter(s: Conn, k: Task, c: Choice)
    requires TaskOk(s.table, k) && s.table.maxPush + 2 !in s.out.sched.queues
    ensures var g, g' := s.going, Do(s, k, c).going;
            && (g'.sent == g.sent || (k.Start? && k.wr.write.GoAway? && g'.sent == Some(k.wr.write.maxStreamID)))
            && (g'.inGoAway == g.inGoAway || g'.inGoAway) && (g'.needToSend ==> g.needToSend || g'.inGoAway)
  {
  }

  lemma GoingOn(s: Conn, e: Event)
    requires Ready(s) && CoreOk(s) && GoingOk(s) && forall x :: x in s.out.sched.queues ==> Seen(s.table, x)
    ensures GoingOk(On(s, e))
  {
    OnGoing(s, e);
    OnTasks(s, e);
  }
}
