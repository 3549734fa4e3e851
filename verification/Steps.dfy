/** Runs put together step by step: what each step of an API call leads to, in full. */
module Steps {
  import opened Tables
  import opened Protocol

  // Nothing is lost and nothing is delivered twice.
  predicate Faultless(run: seq<Step>) {
    forall i | 0 <= i < |run| :: !run[i].Broken?
  }

  ghost predicate Leads(s: State, run: seq<Step>, t: State) {
    Valid(s, run) && Faultless(run) && Final(s, run) == t
  }

  ghost predicate Takes(s: State, step: Step, t: State) {
    Enabled(s, step) && Do(s, step) == t && !step.Broken?
  }

  lemma LeadsNowhere(s: State)
    ensures Leads(s, [], s)
  {
  }

  lemma Extend(s: State, run: seq<Step>, t: State, step: Step, u: State)
    requires Leads(s, run, t) && Takes(t, step, u)
    ensures Leads(s, run + [step], u)
  {
    hide Do, Enabled;
    assert Front(run + [step]) == run && Last(run + [step]) == step;
  }

  lemma LeadsOn(s: State, a: seq<Step>, t: State, b: seq<Step>, u: State)
    requires Leads(s, a, t) && Leads(t, b, u)
    ensures Leads(s, a + b, u)
  {
    RunConcat(s, a, b);
    hide Valid, Final;
  }

  lemma LeadsThroughFour(s: State, w: Step, s1: State, x: Step, s2: State, y: Step, s3: State, z: Step, s4: State)
    requires Takes(s, w, s1) && Takes(s1, x, s2) && Takes(s2, y, s3) && Takes(s3, z, s4)
    ensures Leads(s, [w, x, y, z], s4)
  {
    hide Takes, Leads;
    LeadsNowhere(s);
    Extend(s, [], s, w, s1);
    Extend(s, [] + [w], s1, x, s2);
    Extend(s, [] + [w] + [x], s2, y, s3);
    Extend(s, [] + [w] + [x] + [y], s3, z, s4);
    assert [] + [w] + [x] + [y] + [z] == [w, x, y, z];
  }

  // ---------- creating a domain ----------

  lemma LookupTakes(s: State, c: CallId, name: string)
    requires c !in s.calls && !NameTaken(s.db, name)
    ensures Takes(s, Api(LookupName(c, name)), s.(calls := s.calls[c := Naming(name)]))
  {
  }

  lemma InsertDomainTakes(s: State, c: CallId, d: DomainId, name: string)
    requires At(s, c, Naming(name)) && !NameTaken(s.db, name) && d !in s.issued
    ensures
      var db := s.db.(domains := s.db.domains[d := Domain(name, Pending)]);
      Takes(s, Api(InsertDomain(c, d, name)), s.(db := db, calls := s.calls[c := Creating(d)], issued := s.issued + {d}))
  {
  }

  // A name that was taken after the lookup: nothing is inserted and the call is over.
  lemma TakenInsertTakes(s: State, c: CallId, d: DomainId, name: string)
    requires At(s, c, Naming(name)) && NameTaken(s.db, name) && d !in s.issued
    ensures Takes(s, Api(InsertDomain(c, d, name)), s.(calls := s.calls - {c}, issued := s.issued + {d}))
  {
    hide NameTaken;
  }

  // A domain deleted before its initial scan is inserted: nothing is inserted and the call is over.
  lemma DeletedInsertTakes(s: State, c: CallId, d: DomainId, id: ScanId, createdAt: int)
    requires At(s, c, Creating(d)) && d !in s.db.domains && id !in s.issued
    ensures Takes(s, Api(InsertInitial(c, d, id, createdAt)), s.(calls := s.calls - {c}, issued := s.issued + {id}))
  {
  }

  // A scan deleted during its attempt: nothing is written, and nothing is published unless a retry is due.
  lemma DeletedFinishTakes(s: State, m: Message, outcome: Outcome, next: Option<ScanId>, now: int)
    requires m in s.attempts && m.scan !in s.db.scans
    ensures
      var retry := outcome.Retryable? && m.retries < s.maxRetries;
      Takes(s, Worker(Finish(m, outcome, next, now)),
            s.(queue := if retry then s.queue + multiset{Message(m.scan, m.retries + 1)} else s.queue,
               attempts := s.attempts - multiset{m}, clock := now))
  {
  }

  lemma InsertInitialTakes(s: State, c: CallId, d: DomainId, id: ScanId, createdAt: int)
    requires At(s, c, Creating(d)) && d in s.db.domains && id !in s.issued
    ensures
      Takes(s, Api(InsertInitial(c, d, id, createdAt)),
            s.(db := CreateScan(s.db, id, d, Initial, createdAt), calls := s.calls[c := Initialising(d, id)],
               issued := s.issued + {id}))
  {
  }

  lemma ShowTakes(s: State, c: CallId, d: DomainId, id: ScanId)
    requires At(s, c, Initialising(d, id))
    ensures
      Takes(s, Api(ShowInitial(c, d, id)), s.(db := ShowQueued(s.db, d), calls := s.calls[c := Publishing([id])]))
  {
  }

  // ---------- a manual trigger ----------

  lemma LockTakes(s: State, c: CallId, d: DomainId)
    requires c !in s.calls && d in s.db.domains && !IsLocked(s, d)
    ensures Takes(s, Api(LockDomain(c, d)), s.(calls := s.calls[c := Locked(d)]))
  {
  }

  lemma CheckTakes(s: State, c: CallId, d: DomainId)
    requires At(s, c, Locked(d)) && !HasActive(s.db, d)
    ensures Takes(s, Api(CheckActive(c, d)), s.(calls := s.calls[c := Checked(d)]))
  {
  }

  lemma InsertManualTakes(s: State, c: CallId, d: DomainId, id: ScanId, createdAt: int)
    requires At(s, c, Checked(d)) && d in s.db.domains && id !in s.issued
    ensures
      Takes(s, Api(InsertManual(c, d, id, createdAt)),
            s.(db := ShowQueued(CreateScan(s.db, id, d, Manual, createdAt), d), calls := s.calls[c := Publishing([id])],
               issued := s.issued + {id}))
  {
  }

  // ---------- publishing ----------

  lemma PublishTakes(s: State, c: CallId, todo: seq<ScanId>)
    requires At(s, c, Publishing(todo)) && todo != []
    ensures
      Takes(s, Api(Publish(c, todo)),
            s.(queue := s.queue + multiset{Message(todo[0], 0)},
               calls := if |todo| == 1 then s.calls - {c} else s.calls[c := Publishing(todo[1..])]))
  {
  }
}
