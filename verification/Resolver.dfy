/** The resolver loop over the four record types. */
module Resolver {
  import opened Tables
  import opened Protocol
  import Fqdn

  // The fields of a resource record that the loop may read.
  datatype Rdata = Rdata(exchange: string, target: string, text: string)

  // What querying one record type comes to. Missing stands for NXDOMAIN, NoAnswer and NoNameservers.
  datatype Answer =
    | Answered(rdatas: seq<Rdata>)
    | Missing
    | TimedOut(error: Error)
    | DnsFailed(error: Error)
    | Crashed(error: Error)

  type Answers = AssetType -> Answer

  const RECORD_TYPES: seq<AssetType> := [A, AAAA, NS, MX]

  function ValueOf(rtype: AssetType, rdata: Rdata): string {
    Fqdn.StripDots(match rtype case MX => rdata.exchange case NS => rdata.target case _ => rdata.text)
  }

  predicate Fails(answer: Answer) {
    !answer.Answered? && !answer.Missing?
  }

  // Only DNS exceptions are worth a retry.
  function Raised(answer: Answer): Outcome
    requires Fails(answer)
  {
    if answer.Crashed? then Fatal(answer.error) else Retryable(answer.error)
  }

  function RecordsOf(rtype: AssetType, answer: Answer): seq<Record> {
    if answer.Answered?
    then seq(|answer.rdatas|, i requires 0 <= i < |answer.rdatas| => Record(rtype, ValueOf(rtype, answer.rdatas[i])))
    else []
  }

  // The first failure in the order of the record types, or everything that was answered, in that order.
  function Resolve(answers: Answers): Outcome {
    if Fails(answers(A)) then Raised(answers(A))
    else if Fails(answers(AAAA)) then Raised(answers(AAAA))
    else if Fails(answers(NS)) then Raised(answers(NS))
    else if Fails(answers(MX)) then Raised(answers(MX))
    else
      Resolved(RecordsOf(A, answers(A)) + RecordsOf(AAAA, answers(AAAA)) + RecordsOf(NS, answers(NS)) + RecordsOf(MX, answers(MX)))
  }

  // ---------- what the outcome means ----------

  // The value is the raw text up to its trailing dots.
  ghost predicate Undotted(raw: string, value: string) {
    && |value| <= |raw| && raw[..|value|] == value
    && (forall i | |value| <= i < |raw| :: raw[i] == '.')
    && (value == "" || value[|value| - 1] != '.')
  }

  // All address answers by their text, name servers by their target and mail servers by their exchange,
  // one record for each, in the order answered and type after type.
  ghost predicate Flattens(answers: Answers, records: seq<Record>) {
    exists a: seq<Record>, aaaa: seq<Record>, ns: seq<Record>, mx: seq<Record> ::
      && records == a + aaaa + ns + mx
      && Addresses(A, answers(A), a) && Addresses(AAAA, answers(AAAA), aaaa)
      && NameServers(answers(NS), ns) && MailServers(answers(MX), mx)
  }

  ghost predicate Addresses(rtype: AssetType, answer: Answer, block: seq<Record>) {
    && |block| == (if answer.Answered? then |answer.rdatas| else 0)
    && forall i | 0 <= i < |block| :: block[i].rtype == rtype && Undotted(answer.rdatas[i].text, block[i].value)
  }

  ghost predicate NameServers(answer: Answer, block: seq<Record>) {
    && |block| == (if answer.Answered? then |answer.rdatas| else 0)
    && forall i | 0 <= i < |block| :: block[i].rtype == NS && Undotted(answer.rdatas[i].target, block[i].value)
  }

  ghost predicate MailServers(answer: Answer, block: seq<Record>) {
    && |block| == (if answer.Answered? then |answer.rdatas| else 0)
    && forall i | 0 <= i < |block| :: block[i].rtype == MX && Undotted(answer.rdatas[i].exchange, block[i].value)
  }

  predicate Skips(answer: Answer) {
    answer.Answered? || answer == Missing
  }

  // A timeout or another DNS error is worth a retry, anything else is not.
  predicate Raises(answer: Answer, outcome: Outcome) {
    match answer
    case TimedOut(e) => outcome == Retryable(e)
    case DnsFailed(e) => outcome == Retryable(e)
    case Crashed(e) => outcome == Fatal(e)
    case _ => false
  }

  ghost predicate RaisesFirst(answers: Answers, outcome: Outcome) {
    || Raises(answers(A), outcome)
    || (Skips(answers(A)) && Raises(answers(AAAA), outcome))
    || (Skips(answers(A)) && Skips(answers(AAAA)) && Raises(answers(NS), outcome))
    || (Skips(answers(A)) && Skips(answers(AAAA)) && Skips(answers(NS)) && Raises(answers(MX), outcome))
  }

  lemma {:induction false} StripsDots(s: string)
    ensures Undotted(s, Fqdn.StripDots(s))
    decreases |s|
  {
    if s != "" && s[|s| - 1] == '.' {
      StripsDots(s[..|s| - 1]);
    }
  }

  lemma RecordsInFull(answers: Answers)
    ensures Addresses(A, answers(A), RecordsOf(A, answers(A))) && Addresses(AAAA, answers(AAAA), RecordsOf(AAAA, answers(AAAA)))
    ensures NameServers(answers(NS), RecordsOf(NS, answers(NS))) && MailServers(answers(MX), RecordsOf(MX, answers(MX)))
  {
    forall s
      ensures Undotted(s, Fqdn.StripDots(s))
    {
      StripsDots(s);
    }
    hide Undotted;
  }

  // The outcome, for every vector of answers: the flattened answers, or the first error in order.
  lemma ResolvesInFull(answers: Answers)
    ensures
      var outcome := Resolve(answers);
      && (outcome.Resolved? <==> Skips(answers(A)) && Skips(answers(AAAA)) && Skips(answers(NS)) && Skips(answers(MX)))
      && if outcome.Resolved? then Flattens(answers, outcome.records) else RaisesFirst(answers, outcome)
  {
    RecordsInFull(answers);
    hide RecordsOf, Addresses, NameServers, MailServers;
  }

  // ---------- the loop ----------

  function Gathered(answers: Answers, n: nat): seq<Record>
    requires n <= 4
  {
    if n == 0 then [] else Gathered(answers, n - 1) + RecordsOf(RECORD_TYPES[n - 1], answers(RECORD_TYPES[n - 1]))
  }

  method ResolveDomainRecords(answers: Answers) returns (outcome: Outcome)
    ensures if outcome.Resolved? then Flattens(answers, outcome.records) else RaisesFirst(answers, outcome)
    ensures outcome == Resolve(answers)
    ensures outcome.Resolved? <==> forall t: AssetType :: !Fails(answers(t))
  {
    hide Resolve, ValueOf, Flattens, RaisesFirst;
    var results: seq<Record> := [];
    for i := 0 to |RECORD_TYPES|
      invariant results == Gathered(answers, i)
      invariant forall j | 0 <= j < i :: !Fails(answers(RECORD_TYPES[j]))
    {
      var rtype := RECORD_TYPES[i];
      match answers(rtype)
      case Answered(rdatas) =>
        var before := results;
        for k := 0 to |rdatas|
          invariant results == before + RecordsOf(rtype, answers(rtype))[..k]
        {
          var all := RecordsOf(rtype, answers(rtype));
          assert all[..k + 1] == all[..k] + [Record(rtype, ValueOf(rtype, rdatas[k]))];
          results := results + [Record(rtype, ValueOf(rtype, rdatas[k]))];
        }
      case Missing =>
      case TimedOut(e) =>
        FirstFailure(answers, i);
        return Retryable(e);
      case DnsFailed(e) =>
        FirstFailure(answers, i);
        return Retryable(e);
      case Crashed(e) =>
        FirstFailure(answers, i);
        return Fatal(e);
    }
    NoFailure(answers);
    return Resolved(results);
  }

  lemma FirstFailure(answers: Answers, n: nat)
    requires n < 4 && Fails(answers(RECORD_TYPES[n])) && forall j | 0 <= j < n :: !Fails(answers(RECORD_TYPES[j]))
    ensures Resolve(answers) == Raised(answers(RECORD_TYPES[n])) && !Resolve(answers).Resolved?
    ensures RaisesFirst(answers, Resolve(answers))
  {
    ResolvesInFull(answers);
    hide RaisesFirst;
    assert n > 0 ==> !Fails(answers(RECORD_TYPES[0]));
    assert n > 1 ==> !Fails(answers(RECORD_TYPES[1]));
    assert n > 2 ==> !Fails(answers(RECORD_TYPES[2]));
  }

  lemma NoFailure(answers: Answers)
    requires forall j | 0 <= j < 4 :: !Fails(answers(RECORD_TYPES[j]))
    ensures Resolve(answers) == Resolved(Gathered(answers, 4)) && forall t: AssetType :: !Fails(answers(t))
    ensures Flattens(answers, Gathered(answers, 4))
  {
    ResolvesInFull(answers);
    hide Flattens;
    assert !Fails(answers(RECORD_TYPES[0])) && !Fails(answers(RECORD_TYPES[1]));
    assert !Fails(answers(RECORD_TYPES[2])) && !Fails(answers(RECORD_TYPES[3]));
    forall t: AssetType
      ensures !Fails(answers(t))
    {
      match t case A => case AAAA => case NS => case MX =>
    }
    assert Gathered(answers, 4) == Gathered(answers, 3) + RecordsOf(MX, answers(MX));
    assert Gathered(answers, 3) == Gathered(answers, 2) + RecordsOf(NS, answers(NS));
    assert Gathered(answers, 2) == Gathered(answers, 1) + RecordsOf(AAAA, answers(AAAA));
    assert Gathered(answers, 1) == RecordsOf(A, answers(A));
  }

  // The record is one of the answers to a query of its own type, by the field of that type.
  ghost predicate IsAnswerTo(record: Record, answer: Answer) {
    && answer.Answered?
    && exists rdata | rdata in answer.rdatas ::
         match record.rtype
         case MX => Undotted(rdata.exchange, record.value)
         case NS => Undotted(rdata.target, record.value)
         case A => Undotted(rdata.text, record.value)
         case AAAA => Undotted(rdata.text, record.value)
  }

  lemma RecordsAreAnswers(rtype: AssetType, answer: Answer, record: Record)
    requires record in RecordsOf(rtype, answer)
    ensures record.rtype == rtype && IsAnswerTo(record, answer)
  {
    var i :| 0 <= i < |RecordsOf(rtype, answer)| && record == RecordsOf(rtype, answer)[i];
    var rdata := answer.rdatas[i];
    StripsDots(match rtype case MX => rdata.exchange case NS => rdata.target case _ => rdata.text);
    hide Undotted;
    assert rdata in answer.rdatas;
  }

  // Every record that reaches storage was answered for its own type.
  lemma ResolvedRecordsAreAnswers(answers: Answers, record: Record)
    requires Resolve(answers).Resolved? && record in Resolve(answers).records
    ensures IsAnswerTo(record, answers(record.rtype))
  {
    hide RecordsOf, IsAnswerTo;
    var a, aaaa := RecordsOf(A, answers(A)), RecordsOf(AAAA, answers(AAAA));
    var ns, mx := RecordsOf(NS, answers(NS)), RecordsOf(MX, answers(MX));
    assert record in a || record in aaaa || record in ns || record in mx;
    if record in a {
      RecordsAreAnswers(A, answers(A), record);
    } else if record in aaaa {
      RecordsAreAnswers(AAAA, answers(AAAA), record);
    } else if record in ns {
      RecordsAreAnswers(NS, answers(NS), record);
    } else {
      RecordsAreAnswers(MX, answers(MX), record);
    }
  }
}
