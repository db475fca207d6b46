/**
 Background responses: workers, cancel and delete requests racing on a locked job table and on a
 store that is loaded and saved outside the lock. One action is one lock section, one load or one save.
 */
module Background {
  import opened Llm

  type Id = nat

  datatype Status = Queued | InProgress | Errored | Cancelled | Completed | Incomplete

  /** The part of a job's state that changes while it runs. */
  datatype Progress = Progress(status: Status, message: string)

  /** What the upstream answered: whether it stopped at its limit, and whether it can be continued. */
  datatype Answer = Answer(truncated: bool, portable: bool, text: string)

  datatype Payload = Report(progress: Progress) | Reply(answer: Answer)

  datatype Record = Record(status: Status, continuable: bool, payload: Payload)

  datatype Transcript = Transcript(messages: seq<string>, continuable: bool)

  /** What a request resolved to before its job began: the conversation it belongs to, and its history. */
  datatype Plan = Plan(conversation: Option<Id>, history: seq<string>)

  /** The shared memory: the table under the mutex, and the two stores. */
  datatype Shared = Shared(
    background: map<Id, Progress>, records: map<Id, Record>, conversations: map<Id, Transcript>)

  // ---------------------------------------------------------------- the sections that are atomic

  function Register(sh: Shared, id: Id): Shared {
    sh.(background := sh.background[id := Progress(Queued, "")])
  }

  function Claim(sh: Shared, id: Id): (Option<Progress>, Shared) {
    if id in sh.background then (Some(sh.background[id]), sh.(background := sh.background - {id})) else (None, sh)
  }

  function Mark(sh: Shared, id: Id, p: Progress): (bool, Shared) {
    if id in sh.background then (true, sh.(background := sh.background[id := p])) else (false, sh)
  }

  function Save(sh: Shared, id: Id, record: Record): Shared {
    sh.(records := sh.records[id := record])
  }

  function Delete(sh: Shared, id: Id): Shared {
    sh.(records := sh.records - {id})
  }

  function Extend(sh: Shared, conversation: Id, transcript: Transcript): Shared {
    sh.(conversations := sh.conversations[conversation := transcript])
  }

  /** The plan's history with the answer behind it, whatever the conversation holds by now. */
  function TranscriptOf(plan: Plan, a: Answer): Transcript {
    Transcript(if a.text == "" then plan.history else plan.history + [a.text], a.portable)
  }

  function ProgressRecord(p: Progress): Record {
    Record(p.status, false, Report(p))
  }

  function AnswerRecord(a: Answer): Record {
    Record(if a.truncated then Incomplete else Completed, a.portable, Reply(a))
  }

  /** The runtime object; every method is one critical section or one store access. */
  class Runtime {
    var background: map<Id, Progress>
    var records: map<Id, Record>
    var conversations: map<Id, Transcript>

    constructor ()
      ensures Abs() == Shared(map[], map[], map[])
    {
      background, records, conversations := map[], map[], map[];
    }

    function Abs(): Shared
      reads this
    {
      Shared(background, records, conversations)
    }

    method RegisterJob(id: Id)
      modifies this`background
      ensures Abs() == Register(old(Abs()), id)
    {
      background := background[id := Progress(Queued, "")];
    }

    method ClaimJob(id: Id) returns (job: Option<Progress>)
      modifies this`background
      ensures (job, Abs()) == Claim(old(Abs()), id)
    {
      job := None;
      if id in background {
        job := Some(background[id]);
        background := background - {id};
      }
    }

    method MarkJob(id: Id, p: Progress) returns (ok: bool)
      modifies this`background
      ensures (ok, Abs()) == Mark(old(Abs()), id, p)
    {
      ok := id in background;
      if ok {
        background := background[id := p];
      }
    }

    method LoadResponse(id: Id) returns (record: Option<Record>)
      ensures record == if id in records then Some(records[id]) else None
    {
      record := if id in records then Some(records[id]) else None;
    }

    method SaveResponse(id: Id, record: Record)
      modifies this`records
      ensures Abs() == Save(old(Abs()), id, record)
    {
      records := records[id := record];
    }

    method DeleteResponse(id: Id) returns (ok: bool)
      modifies this`records
      ensures ok == (id in old(records)) && Abs() == Delete(old(Abs()), id)
    {
      ok := id in records;
      records := records - {id};
    }

    method SaveConversation(conversation: Id, transcript: Transcript)
      modifies this`conversations
      ensures Abs() == Extend(old(Abs()), conversation, transcript)
    {
      conversations := conversations[conversation := transcript];
    }
  }

  // ---------------------------------------------------------------- the threads

  /** Where a worker stands: what it does next. */
  datatype Worker =
    | Unregistered
    | Marking(progress: Progress)
    | MarkLoading(progress: Progress)
    | MarkSaving(progress: Progress)
    | Working
    | Claiming(answer: Answer)
    | Extending(answer: Answer)
    | Storing(answer: Answer)
    | FailureLoading(message: string)
    | FailureSaving(message: string)
    | Releasing
    | Ended

  /** Where a cancel or delete request stands. */
  datatype Call =
    | CallClaiming(id: Id, delete: bool)
    | CallLoading(id: Id, delete: bool, progress: Progress)
    | CallSaving(id: Id, delete: bool, progress: Progress)
    | CallDeleting(id: Id)
    | CallEnded

  /** A won claim. `overtaken` says that a status update of the worker was already past its unlock. */
  datatype Claimant = ByWorker | ByCall(call: nat, overtaken: bool)

  /** `claims` and `told` are history: who won a job's claim, and which jobs saved their conversation. */
  datatype State = State(
    shared: Shared, workers: map<Id, Worker>, plans: map<Id, Plan>, stopped: set<Id>, calls: map<nat, Call>,
    claims: map<Id, seq<Claimant>>, told: set<Id>)

  const INITIAL := State(Shared(map[], map[], map[]), map[], map[], {}, map[], map[], {})

  datatype WorkResult = Erred(message: string) | Answered(answer: Answer)

  /** `ok` is the outcome of the store access where it may fail. */
  datatype Action =
    | Start(id: Id, plan: Plan)
    | Enter(id: Id)
    | MarkSection(id: Id)
    | MarkLoad(id: Id)
    | MarkSave(id: Id, ok: bool)
    | Work(id: Id, result: WorkResult)
    | ClaimSection(id: Id)
    | SaveTurn(id: Id, ok: bool)
    | StoreAnswer(id: Id, ok: bool)
    | FailureLoad(id: Id)
    | FailureSave(id: Id, ok: bool)
    | Release(id: Id)
    | Request(call: nat, id: Id, delete: bool)
    | CallClaim(call: nat)
    | CallLoad(call: nat)
    | CallSave(call: nat, ok: bool)
    | CallDelete(call: nat, ok: bool)
    | Expire(id: Id)
    | TimeOut(id: Id)

  function Claims(s: State, id: Id): seq<Claimant> {
    if id in s.claims then s.claims[id] else []
  }

  function PlanOf(s: State, id: Id): Plan {
    if id in s.plans then s.plans[id] else Plan(None, [])
  }

  function Won(s: State, id: Id, who: Claimant): State {
    s.(claims := s.claims[id := Claims(s, id) + [who]])
  }

  function Move(s: State, id: Id, w: Worker): State {
    s.(workers := s.workers[id := w])
  }

  function Go(s: State, call: nat, c: Call): State {
    s.(calls := s.calls[call := c])
  }

  function AfterMark(p: Progress): Worker {
    if p.status == InProgress then Working else Releasing
  }

  predicate InFlight(w: Worker) {
    w.MarkLoading? || w.MarkSaving?
  }

  function WorkerStep(s: State, a: Action): Option<State>
    requires !a.Start? && !a.Request? && !a.CallClaim? && !a.CallLoad? && !a.CallSave? && !a.CallDelete?
    requires !a.Expire? && !a.TimeOut?
  {
    if a.id !in s.workers then None
    else
      var id, w, sh := a.id, s.workers[a.id], s.shared;
      match (a, w)
      case (Enter(_), Unregistered) => Some(Move(s, id, Marking(Progress(InProgress, ""))).(shared := Register(sh, id)))
      case (MarkSection(_), Marking(p)) =>
        var (ok, t) := Mark(sh, id, p);
        Some(Move(s, id, if ok then MarkLoading(p) else AfterMark(p)).(shared := t))
      case (MarkLoad(_), MarkLoading(p)) => Some(Move(s, id, if id in sh.records then MarkSaving(p) else AfterMark(p)))
      case (MarkSave(_, ok), MarkSaving(p)) =>
        Some(Move(s, id, AfterMark(p)).(shared := if ok then Save(sh, id, ProgressRecord(p)) else sh))
      case (Work(_, result), Working) =>
        Some(Move(s, id,
                  if id in s.stopped then Marking(Progress(Errored, "context"))
                  else if result.Erred? then Marking(Progress(Errored, result.message))
                  else Claiming(result.answer)))
      case (ClaimSection(_), Claiming(answer)) =>
        var (job, t) := Claim(sh, id);
        if job.None? then Some(Move(s, id, Releasing))
        else Some(Won(Move(s, id, Extending(answer)), id, ByWorker).(shared := t, stopped := s.stopped + {id}))
      case (SaveTurn(_, ok), Extending(answer)) =>
        var plan := PlanOf(s, id);
        if plan.conversation.None? then Some(Move(s, id, Storing(answer)))
        else if !ok then Some(Move(s, id, FailureLoading("persist")))
        else
          Some(Move(s, id, Storing(answer)).(
               shared := Extend(sh, plan.conversation.value, TranscriptOf(plan, answer)), told := s.told + {id}))
      case (StoreAnswer(_, ok), Storing(answer)) =>
        if ok then Some(Move(s, id, Releasing).(shared := Save(sh, id, AnswerRecord(answer))))
        else Some(Move(s, id, FailureLoading("persist")))
      case (FailureLoad(_), FailureLoading(message)) =>
        Some(Move(s, id, if id in sh.records then FailureSaving(message) else Releasing))
      case (FailureSave(_, ok), FailureSaving(message)) =>
        Some(Move(s, id, Releasing).(shared := if ok then Save(sh, id, ProgressRecord(Progress(Errored, message))) else sh))
      case (Release(_), Releasing) =>
        var (job, t) := Claim(sh, id);
        Some(Move(s, id, Ended).(shared := t, stopped := if job.Some? then s.stopped + {id} else s.stopped))
      case _ => None
  }

  function CallStep(s: State, a: Action): Option<State>
    requires a.CallClaim? || a.CallLoad? || a.CallSave? || a.CallDelete?
  {
    if a.call !in s.calls then None
    else
      var n, c, sh := a.call, s.calls[a.call], s.shared;
      match (a, c)
      case (CallClaim(_), CallClaiming(id, delete)) =>
        var (job, t) := Claim(sh, id);
        if job.None? then Some(Go(s, n, if delete then CallDeleting(id) else CallEnded))
        else
          var overtaken := id in s.workers && InFlight(s.workers[id]);
          Some(Won(Go(s, n, CallLoading(id, delete, job.value.(status := Cancelled))), id, ByCall(n, overtaken)).(
               shared := t, stopped := s.stopped + {id}))
      case (CallLoad(_), CallLoading(id, delete, p)) =>
        Some(Go(s, n, if id in sh.records then CallSaving(id, delete, p) else CallEnded))
      case (CallSave(_, ok), CallSaving(id, delete, p)) =>
        if !ok then Some(Go(s, n, CallEnded))
        else Some(Go(s, n, if delete then CallDeleting(id) else CallEnded).(shared := Save(sh, id, ProgressRecord(p))))
      case (CallDelete(_, ok), CallDeleting(id)) =>
        Some(Go(s, n, CallEnded).(shared := if ok then Delete(sh, id) else sh))
      case _ => None
  }

  /** One action; `None` when the thread is not there. Generated ids are fresh. */
  function Perform(s: State, a: Action): Option<State> {
    match a
    case Start(id, plan) =>
      if id in s.workers then None
      else
        Some(Move(s, id, Unregistered).(
             shared := Save(s.shared, id, ProgressRecord(Progress(Queued, ""))), plans := s.plans[id := plan]))
    case Request(call, id, delete) => if call in s.calls then None else Some(Go(s, call, CallClaiming(id, delete)))
    case CallClaim(_) => CallStep(s, a)
    case CallLoad(_) => CallStep(s, a)
    case CallSave(_, _) => CallStep(s, a)
    case CallDelete(_, _) => CallStep(s, a)
    case Expire(id) => Some(s.(shared := Delete(s.shared, id)))
    case TimeOut(id) => Some(s.(stopped := s.stopped + {id}))
    case _ => WorkerStep(s, a)
  }

  /** Any interleaving, action by action. */
  function Run(actions: seq<Action>): Option<State> {
    if actions == [] then Some(INITIAL)
    else
      match Run(actions[..|actions| - 1])
      case None => None
      case Some(s) => Perform(s, actions[|actions| - 1])
  }

  // ---------------------------------------------------------------- the routines when nothing interferes

  /** Cancelling: whether the job was claimed, whether the record was found, and the memory afterwards. */
  function CancelAlone(sh: Shared, id: Id): (bool, bool, Shared) {
    var (job, t) := Claim(sh, id);
    if job.None? then (false, false, sh)
    else if id !in t.records then (true, false, t)
    else (true, true, Save(t, id, ProgressRecord(job.value.(status := Cancelled))))
  }

  function MarkAlone(sh: Shared, id: Id, p: Progress): Shared {
    var (ok, t) := Mark(sh, id, p);
    if ok && id in t.records then Save(t, id, ProgressRecord(p)) else t
  }

  method CancelBackgroundResponse(r: Runtime, id: Id) returns (claimed: bool, ok: bool)
    modifies r
    ensures (claimed, ok, r.Abs()) == CancelAlone(old(r.Abs()), id)
  {
    var job := r.ClaimJob(id);
    if job.None? { return false, false; }
    var record := r.LoadResponse(id);
    if record.None? { return true, false; }
    var progress := job.value.(status := Cancelled);
    r.SaveResponse(id, record.value.(status := Cancelled, continuable := false, payload := Report(progress)));
    return true, true;
  }

  method SetBackgroundStatus(r: Runtime, id: Id, status: Status, message: string)
    modifies r
    ensures r.Abs() == MarkAlone(old(r.Abs()), id, Progress(status, message))
  {
    var progress := Progress(status, message);
    var ok := r.MarkJob(id, progress);
    if !ok { return; }
    var record := r.LoadResponse(id);
    if record.None? { return; }
    r.SaveResponse(id, record.value.(status := status, continuable := false, payload := Report(progress)));
  }

  /** A cancellation is the caller's exactly if there was a job to claim, which is then gone; it fails exactly if
      that job left no record, and else shows in the record, all others being as they were. */
  lemma CancelReports(sh: Shared, id: Id)
    ensures var (claimed, ok, after) := CancelAlone(sh, id);
            && (claimed <==> id in sh.background) && (ok <==> id in sh.background && id in sh.records)
            && after.background == sh.background - {id} && after.conversations == sh.conversations
            && (!ok ==> after.records == sh.records)
            && (ok ==>
                  && id in after.records && after.records == sh.records[id := after.records[id]]
                  && after.records[id].status == Cancelled && !after.records[id].continuable
                  && after.records[id].payload == Report(Progress(Cancelled, sh.background[id].message)))
  {
    if id !in sh.background {
      assert sh.background - {id} == sh.background;
    }
  }

  /** A status update does nothing without a job, and nothing more to one whose record is gone. */
  lemma MarkReports(sh: Shared, id: Id, p: Progress)
    ensures var after := MarkAlone(sh, id, p);
            && (id !in sh.background ==> after == sh)
            && (id in sh.background ==>
                  after.background == sh.background[id := p] && after.conversations == sh.conversations)
            && (id in sh.background && id in sh.records ==>
                  after.records == sh.records[id := Record(p.status, false, Report(p))])
            && (id in sh.background && id !in sh.records ==> after.records == sh.records)
  {
  }

  /** The three actions of a cancel request are that routine, cut where other threads may run. */
  lemma CallRunsCancel(s: State, n: nat, id: Id)
    requires n in s.calls && s.calls[n] == CallClaiming(id, false)
    ensures var (claimed, ok, sh) := CancelAlone(s.shared, id);
            var a := Perform(s, CallClaim(n));
            && a.Some? && (!claimed ==> a.value.shared == sh)
            && (claimed ==>
                  var b := Perform(a.value, CallLoad(n));
                  && b.Some? && (!ok ==> b.value.shared == sh)
                  && (ok ==> var c := Perform(b.value, CallSave(n, true)); c.Some? && c.value.shared == sh))
  {
    hide WorkerStep;
  }

  lemma WorkerRunsMark(s: State, id: Id, p: Progress)
    requires id in s.workers && s.workers[id] == Marking(p)
    ensures var sh := MarkAlone(s.shared, id, p);
            var a := Perform(s, MarkSection(id));
            && a.Some?
            && (id !in s.shared.background ==> a.value.shared == sh)
            && (id in s.shared.background ==>
                  var b := Perform(a.value, MarkLoad(id));
                  && b.Some?
                  && (id !in s.shared.records ==> b.value.shared == sh)
                  && (id in s.shared.records ==> var c := Perform(b.value, MarkSave(id, true)); c.Some? && c.value.shared == sh))
  {
    hide CallStep;
  }

  // ---------------------------------------------------------------- what every interleaving keeps

  predicate Live(w: Worker) {
    w.Marking? || w.MarkLoading? || w.MarkSaving? || w.Working? || w.Claiming? || w.Releasing?
  }

  /** Between winning its claim and releasing the job. */
  predicate Delivering(w: Worker) {
    w.Extending? || w.Storing? || w.FailureLoading? || w.FailureSaving?
  }

  /** A record that holds an answer or can be continued. */
  predicate Final(r: Record) {
    r.status == Completed || r.status == Incomplete || r.continuable || r.payload.Reply?
  }

  ghost predicate ClaimOk(s: State, id: Id) {
    && |Claims(s, id)| <= 1
    && (id in s.shared.background ==> id in s.workers && Live(s.workers[id]) && Claims(s, id) == [])
    && (id !in s.workers ==> Claims(s, id) == [])
    && (id in s.workers && s.workers[id].Unregistered? ==> Claims(s, id) == [])
  }

  ghost predicate WorkerOk(s: State, id: Id) {
    id in s.workers ==>
      var w := s.workers[id];
      && (Delivering(w) ==> Claims(s, id) == [ByWorker])
      && (Claims(s, id) == [ByWorker] ==> Delivering(w) || w.Releasing? || w.Ended?)
      && (InFlight(w) && Claims(s, id) != [] ==> Claims(s, id)[0].ByCall? && Claims(s, id)[0].overtaken)
      && ((w.Marking? || InFlight(w)) ==> w.progress.status == InProgress || w.progress.status == Errored)
  }

  ghost predicate RecordOk(s: State, id: Id) {
    id in s.shared.records ==>
      && id in s.workers
      && (Final(s.shared.records[id]) ==>
            Claims(s, id) == [ByWorker] && (s.workers[id].Releasing? || s.workers[id].Ended?))
      && (s.shared.records[id].status == Cancelled ==> Claims(s, id) != [] && Claims(s, id)[0].ByCall?)
  }

  ghost predicate TurnOk(s: State, id: Id) {
    id in s.told ==> Claims(s, id) == [ByWorker] && id in s.workers && !s.workers[id].Extending?
  }

  ghost predicate CallOk(s: State, n: nat) {
    n in s.calls && (s.calls[n].CallLoading? || s.calls[n].CallSaving?) ==>
      && |Claims(s, s.calls[n].id)| == 1
      && Claims(s, s.calls[n].id)[0].ByCall? && Claims(s, s.calls[n].id)[0].call == n
      && s.calls[n].id in s.workers
      && s.calls[n].progress.status == Cancelled
  }

  ghost predicate Invariant(s: State) {
    && (forall id :: ClaimOk(s, id))
    && (forall id :: WorkerOk(s, id))
    && (forall id :: RecordOk(s, id))
    && (forall id :: TurnOk(s, id))
    && (forall n :: CallOk(s, n))
  }

  predicate OfCall(a: Action) {
    a.Request? || a.CallClaim? || a.CallLoad? || a.CallSave? || a.CallDelete?
  }

  /** The job an action is about. */
  function Subject(s: State, a: Action): Option<Id> {
    if a.Request? then Some(a.id)
    else if OfCall(a) then if a.call in s.calls && !s.calls[a.call].CallEnded? then Some(s.calls[a.call].id) else None
    else Some(a.id)
  }

  /** Nothing about job `id` differs. */
  ghost predicate Same(s: State, t: State, id: Id) {
    && (id in t.shared.background <==> id in s.shared.background)
    && (id in t.workers <==> id in s.workers) && (id in s.workers ==> t.workers[id] == s.workers[id])
    && (id in t.shared.records <==> id in s.shared.records)
    && (id in s.shared.records ==> t.shared.records[id] == s.shared.records[id])
    && Claims(t, id) == Claims(s, id)
    && (id in t.told <==> id in s.told) && (id in t.stopped <==> id in s.stopped)
  }

  lemma WorkerOthersSame(s: State, a: Action, id: Id)
    requires Perform(s, a).Some? && !OfCall(a) && a.id != id
    ensures Same(s, Perform(s, a).value, id)
  {
    hide CallStep, WorkerStep;
    if !a.Start? && !a.Expire? && !a.TimeOut? {
      StepOthersSame(s, a, id);
    }
  }

  lemma StepOthersSame(s: State, a: Action, id: Id)
    requires !OfCall(a) && !a.Start? && !a.Expire? && !a.TimeOut?
    requires WorkerStep(s, a).Some? && a.id != id
    ensures Same(s, WorkerStep(s, a).value, id)
  {
    hide WorkerStep;
    StepOthersShared(s, a, id);
    StepOthersThreads(s, a, id);
  }

  lemma StepOthersShared(s: State, a: Action, id: Id)
    requires !OfCall(a) && !a.Start? && !a.Expire? && !a.TimeOut?
    requires WorkerStep(s, a).Some? && a.id != id
    ensures var t := WorkerStep(s, a).value.shared;
            && (id in t.background <==> id in s.shared.background)
            && (id in t.records <==> id in s.shared.records)
            && (id in s.shared.records ==> t.records[id] == s.shared.records[id])
  {
  }

  lemma StepOthersThreads(s: State, a: Action, id: Id)
    requires !OfCall(a) && !a.Start? && !a.Expire? && !a.TimeOut?
    requires WorkerStep(s, a).Some? && a.id != id
    ensures var t := WorkerStep(s, a).value;
            && (id in t.workers <==> id in s.workers) && (id in s.workers ==> t.workers[id] == s.workers[id])
            && Claims(t, id) == Claims(s, id)
            && (id in t.told <==> id in s.told) && (id in t.stopped <==> id in s.stopped)
  {
  }

  lemma CallOthersSame(s: State, a: Action, id: Id)
    requires Perform(s, a).Some? && OfCall(a) && Subject(s, a) != Some(id)
    ensures Same(s, Perform(s, a).value, id)
  {
    hide WorkerStep;
  }

  lemma OthersSame(s: State, a: Action, id: Id)
    requires Perform(s, a).Some? && Subject(s, a) != Some(id)
    ensures Same(s, Perform(s, a).value, id)
  {
    hide Perform;
    if OfCall(a) {
      CallOthersSame(s, a, id);
    } else {
      WorkerOthersSame(s, a, id);
    }
  }

  lemma WonOnce(s: State, id: Id, who: Claimant)
    requires Claims(s, id) == []
    ensures Claims(Won(s, id, who), id) == [who]
  {
  }

  ghost predicate JobOk(s: State, id: Id) {
    ClaimOk(s, id) && WorkerOk(s, id) && RecordOk(s, id)
  }

  /** The actions of a worker outside its claim. */
  lemma WorkKeepsJob(s: State, a: Action)
    requires Invariant(s) && Perform(s, a).Some?
    requires a.Start? || a.Enter? || a.Work?
    ensures JobOk(Perform(s, a).value, a.id)
  {
    hide TurnOk, CallOk, CallStep;
    assert ClaimOk(s, a.id) && WorkerOk(s, a.id) && RecordOk(s, a.id);
  }

  lemma MarkKeepsJob(s: State, a: Action)
    requires Invariant(s) && Perform(s, a).Some?
    requires a.MarkSection? || a.MarkLoad? || a.MarkSave?
    ensures JobOk(Perform(s, a).value, a.id)
  {
    hide TurnOk, CallOk, CallStep;
    assert ClaimOk(s, a.id) && WorkerOk(s, a.id) && RecordOk(s, a.id);
  }

  lemma DeliveryKeepsJob(s: State, a: Action)
    requires Invariant(s) && Perform(s, a).Some?
    requires a.ClaimSection? || a.SaveTurn? || a.Release?
    ensures JobOk(Perform(s, a).value, a.id)
  {
    hide TurnOk, CallOk, CallStep;
    assert ClaimOk(s, a.id) && WorkerOk(s, a.id) && RecordOk(s, a.id);
    if a.ClaimSection? && a.id in s.shared.background {
      WonOnce(s, a.id, ByWorker);
    }
  }

  lemma OutcomeKeepsJob(s: State, a: Action)
    requires Invariant(s) && Perform(s, a).Some?
    requires a.StoreAnswer? || a.FailureLoad? || a.FailureSave?
    ensures JobOk(Perform(s, a).value, a.id)
  {
    hide TurnOk, CallOk, CallStep;
    assert ClaimOk(s, a.id) && WorkerOk(s, a.id) && RecordOk(s, a.id);
  }

  lemma CallKeepsJob(s: State, a: Action, id: Id)
    requires Invariant(s) && Perform(s, a).Some? && OfCall(a) && Subject(s, a) == Some(id)
    ensures JobOk(Perform(s, a).value, id)
  {
    hide TurnOk, WorkerStep;
    assert ClaimOk(s, id) && WorkerOk(s, id) && RecordOk(s, id);
    if a.CallClaim? && id in s.shared.background {
      WonOnce(s, id, ByCall(a.call, InFlight(s.workers[id])));
    } else if a.CallSave? {
      assert CallOk(s, a.call);
    }
  }

  lemma OutsideKeepsJob(s: State, a: Action)
    requires Invariant(s) && (a.Expire? || a.TimeOut?)
    ensures JobOk(Perform(s, a).value, a.id)
  {
    hide TurnOk, CallOk, WorkerStep, CallStep;
    assert ClaimOk(s, a.id) && WorkerOk(s, a.id) && RecordOk(s, a.id);
  }

  lemma KeepsJob(s: State, a: Action, id: Id)
    requires Invariant(s) && Perform(s, a).Some?
    ensures JobOk(Perform(s, a).value, id)
  {
    hide Perform, TurnOk, CallOk;
    if Subject(s, a) != Some(id) {
      OthersSame(s, a, id);
      assert ClaimOk(s, id) && WorkerOk(s, id) && RecordOk(s, id);
    } else if OfCall(a) {
      CallKeepsJob(s, a, id);
    } else if a.Expire? || a.TimeOut? {
      OutsideKeepsJob(s, a);
    } else if a.Start? || a.Enter? || a.Work? {
      WorkKeepsJob(s, a);
    } else if a.MarkSection? || a.MarkLoad? || a.MarkSave? {
      MarkKeepsJob(s, a);
    } else if a.ClaimSection? || a.SaveTurn? || a.Release? {
      DeliveryKeepsJob(s, a);
    } else {
      OutcomeKeepsJob(s, a);
    }
  }

  lemma KeepsTurn(s: State, a: Action, id: Id)
    requires Invariant(s) && Perform(s, a).Some?
    ensures TurnOk(Perform(s, a).value, id)
  {
    hide RecordOk, CallOk;
    var t := Perform(s, a).value;
    if Subject(s, a) != Some(id) {
      hide Perform;
      OthersSame(s, a, id);
      assert TurnOk(s, id);
    } else {
      SubjectKeepsTurn(s, a, id);
    }
  }

  lemma SubjectKeepsTurn(s: State, a: Action, id: Id)
    requires Invariant(s) && Perform(s, a).Some? && Subject(s, a) == Some(id)
    ensures TurnOk(Perform(s, a).value, id)
  {
    hide RecordOk, CallOk, Perform;
    assert ClaimOk(s, id) && WorkerOk(s, id) && TurnOk(s, id);
    if a.SaveTurn? {
      SaveTurnIsClaimed(s, a);
    } else {
      OnlySaveTurnTells(s, a);
      if id in s.told {
        ClaimsStay(s, a, id);
        NeverExtendsAgain(s, a, id);
      }
    }
  }

  lemma OnlySaveTurnTells(s: State, a: Action)
    requires Perform(s, a).Some? && !a.SaveTurn?
    ensures Perform(s, a).value.told == s.told
  {
  }

  lemma SaveTurnIsClaimed(s: State, a: Action)
    requires Invariant(s) && Perform(s, a).Some? && a.SaveTurn?
    ensures var t := Perform(s, a).value;
            Claims(t, a.id) == [ByWorker] && a.id in t.workers && !t.workers[a.id].Extending?
  {
    hide RecordOk, CallOk, TurnOk, ClaimOk;
    assert WorkerOk(s, a.id);
  }

  lemma NeverExtendsAgain(s: State, a: Action, id: Id)
    requires Perform(s, a).Some? && Claims(s, id) == [ByWorker] && WorkerOk(s, id)
    requires id in s.workers && !s.workers[id].Extending?
    ensures id in Perform(s, a).value.workers && !Perform(s, a).value.workers[id].Extending?
  {
  }

  /** Whoever won a claim, no action takes it away or lets another win. */
  lemma ClaimsStay(s: State, a: Action, id: Id)
    requires ClaimOk(s, id) && Perform(s, a).Some? && Claims(s, id) != []
    ensures Claims(Perform(s, a).value, id) == Claims(s, id) && id in Perform(s, a).value.workers
  {
    if OfCall(a) {
      hide WorkerStep;
    } else {
      hide CallStep;
    }
  }

  lemma OwnCall(s: State, a: Action)
    requires Invariant(s) && Perform(s, a).Some? && OfCall(a)
    ensures CallOk(Perform(s, a).value, a.call)
  {
    hide RecordOk, TurnOk, WorkerOk, WorkerStep;
    assert CallOk(s, a.call);
    if a.CallClaim? {
      var id := s.calls[a.call].id;
      assert ClaimOk(s, id);
      if id in s.shared.background {
        WonOnce(s, id, ByCall(a.call, InFlight(s.workers[id])));
      }
    }
  }

  lemma CallsApart(s: State, a: Action, n: nat)
    requires Perform(s, a).Some? && !(OfCall(a) && a.call == n)
    ensures n in Perform(s, a).value.calls <==> n in s.calls
    ensures n in s.calls ==> Perform(s, a).value.calls[n] == s.calls[n]
  {
  }

  lemma KeepsCall(s: State, a: Action, n: nat)
    requires Invariant(s) && Perform(s, a).Some?
    ensures CallOk(Perform(s, a).value, n)
  {
    hide RecordOk, TurnOk, WorkerOk, Perform;
    if OfCall(a) && a.call == n {
      OwnCall(s, a);
    } else {
      CallsApart(s, a, n);
      assert CallOk(s, n);
      if n in s.calls && (s.calls[n].CallLoading? || s.calls[n].CallSaving?) {
        assert ClaimOk(s, s.calls[n].id);
        ClaimsStay(s, a, s.calls[n].id);
      }
    }
  }

  /** One action, of any thread, keeps the invariant. */
  lemma PerformKeeps(s: State, a: Action)
    requires Invariant(s) && Perform(s, a).Some?
    ensures Invariant(Perform(s, a).value)
  {
    hide Perform, ClaimOk, WorkerOk, RecordOk, TurnOk, CallOk;
    var t := Perform(s, a).value;
    forall id ensures ClaimOk(t, id) && WorkerOk(t, id) && RecordOk(t, id) && TurnOk(t, id) {
      KeepsJob(s, a, id);
      KeepsTurn(s, a, id);
    }
    forall n ensures CallOk(t, n) {
      KeepsCall(s, a, n);
    }
  }

  lemma RunSnoc(actions: seq<Action>, a: Action)
    ensures Run(actions + [a]) == (match Run(actions) case None => None case Some(s) => Perform(s, a))
  {
    assert (actions + [a])[..|actions|] == actions;
  }

  lemma {:induction false} RunPrefix(actions: seq<Action>, more: seq<Action>)
    requires Run(actions + more).Some?
    ensures Run(actions).Some?
  {
    if more == [] {
      assert actions + more == actions;
    } else {
      var last := |more| - 1;
      assert actions + more == (actions + more[..last]) + [more[last]];
      RunSnoc(actions + more[..last], more[last]);
      RunPrefix(actions, more[..last]);
    }
  }

  lemma {:induction false} RunKeeps(actions: seq<Action>)
    requires Run(actions).Some?
    ensures Invariant(Run(actions).value)
  {
    hide Perform;
    if actions == [] {
      InitialInvariant();
    } else {
      hide Invariant;
      RunKeeps(actions[..|actions| - 1]);
      PerformKeeps(Run(actions[..|actions| - 1]).value, actions[|actions| - 1]);
    }
  }

  lemma InitialInvariant()
    ensures Invariant(INITIAL)
  {
  }

  // ---------------------------------------------------------------- what the exclusive claim gives

  /** In every reachable state: a job is claimed at most once; while it is in the table it is unclaimed
      and its worker is there to take it out; an answer or a record that can be continued is the work of
      a worker that won; and whoever lost never touched the conversation. */
  lemma ClaimsAreExclusive(actions: seq<Action>, id: Id)
    requires Run(actions).Some?
    ensures var s := Run(actions).value;
            && |Claims(s, id)| <= 1
            && (id in s.shared.background ==> Claims(s, id) == [] && id in s.workers && Live(s.workers[id]))
            && (id in s.shared.records && Final(s.shared.records[id]) ==> Claims(s, id) == [ByWorker])
            && (id in s.told ==> Claims(s, id) == [ByWorker])
  {
    hide Run;
    RunKeeps(actions);
    var s := Run(actions).value;
    assert ClaimOk(s, id) && WorkerOk(s, id) && RecordOk(s, id) && TurnOk(s, id);
  }

  /** A request leaves a record alone, removes it, or marks it cancelled. */
  lemma CallsCancel(s: State, a: Action, id: Id)
    requires Invariant(s) && Perform(s, a).Some?
    ensures var t := Perform(s, a).value;
            OfCall(a) && id in t.shared.records && !(id in s.shared.records && s.shared.records[id] == t.shared.records[id]) ==>
              t.shared.records[id].status == Cancelled && !Final(t.shared.records[id])
  {
    hide TurnOk, RecordOk, WorkerOk, ClaimOk, WorkerStep;
    if a.CallSave? {
      assert CallOk(s, a.call);
    }
  }

  /** Only a worker that won its claim makes a record final, by storing its answer. */
  lemma OnlyTheWinnerAnswers(s: State, a: Action, id: Id)
    requires Invariant(s) && Perform(s, a).Some?
    requires var t := Perform(s, a).value;
             && id in t.shared.records && Final(t.shared.records[id])
             && !(id in s.shared.records && s.shared.records[id] == t.shared.records[id])
    ensures a == StoreAnswer(id, true) && Claims(s, id) == [ByWorker]
  {
    hide TurnOk, RecordOk, CallOk;
    assert WorkerOk(s, id);
    CallsCancel(s, a, id);
    if Subject(s, a) != Some(id) {
      OthersSame(s, a, id);
    }
  }

  /** A cancelled record is replaced by nothing but a status update that was already past its unlock
      when the request claimed the job. */
  lemma CancelledOnlyOvertaken(s: State, a: Action, id: Id)
    requires Invariant(s) && Perform(s, a).Some?
    requires id in s.shared.records && s.shared.records[id].status == Cancelled
    requires var t := Perform(s, a).value; id in t.shared.records && t.shared.records[id].status != Cancelled
    ensures a == MarkSave(id, true) && |Claims(s, id)| == 1 && Claims(s, id)[0].ByCall? && Claims(s, id)[0].overtaken
  {
    hide TurnOk;
    hide CallOk;
    assert ClaimOk(s, id) && WorkerOk(s, id) && RecordOk(s, id);
    CallsCancel(s, a, id);
    if Subject(s, a) != Some(id) {
      OthersSame(s, a, id);
    }
  }

  /** Claimed, and nothing on its way to the record any more. */
  ghost predicate Settled(s: State, id: Id) {
    && Claims(s, id) != []
    && id in s.workers && !InFlight(s.workers[id]) && !Delivering(s.workers[id])
    && forall n :: n in s.calls && (s.calls[n].CallLoading? || s.calls[n].CallSaving?) ==> s.calls[n].id != id
  }

  /** The record of `id`, if any. */
  function RecordAt(s: State, id: Id): Option<Record> {
    if id in s.shared.records then Some(s.shared.records[id]) else None
  }

  lemma SettledWorker(s: State, a: Action, id: Id)
    requires ClaimOk(s, id) && WorkerOk(s, id) && Settled(s, id) && Perform(s, a).Some?
    requires !OfCall(a) && Subject(s, a) == Some(id)
    ensures var t := Perform(s, a).value;
            && id in t.workers && !InFlight(t.workers[id]) && !Delivering(t.workers[id])
            && (RecordAt(t, id) == RecordAt(s, id) || RecordAt(t, id).None?)
  {
    hide CallStep;
  }

  lemma SettledCall(s: State, a: Action, id: Id)
    requires ClaimOk(s, id) && Settled(s, id) && Perform(s, a).Some?
    requires OfCall(a) && Subject(s, a) == Some(id)
    ensures var t := Perform(s, a).value;
            && t.workers == s.workers
            && (RecordAt(t, id) == RecordAt(s, id) || RecordAt(t, id).None?)
            && (a.call in t.calls ==> !t.calls[a.call].CallLoading? && !t.calls[a.call].CallSaving?)
  {
    hide WorkerStep;
  }

  /** Once settled, a job stays settled, and all that can still happen to its record is removal. */
  lemma SettledStays(s: State, a: Action, id: Id)
    requires Invariant(s) && Settled(s, id) && Perform(s, a).Some?
    ensures var t := Perform(s, a).value;
            Settled(t, id) && (RecordAt(t, id) == RecordAt(s, id) || RecordAt(t, id).None?)
  {
    hide TurnOk, RecordOk, CallOk, Perform;
    assert ClaimOk(s, id) && WorkerOk(s, id);
    var t := Perform(s, a).value;
    ClaimsStay(s, a, id);
    if Subject(s, a) != Some(id) {
      OthersSame(s, a, id);
    } else if OfCall(a) {
      SettledCall(s, a, id);
    } else {
      SettledWorker(s, a, id);
    }
    forall n | n in t.calls && (t.calls[n].CallLoading? || t.calls[n].CallSaving?) ensures t.calls[n].id != id {
      if OfCall(a) && a.call == n {
        CallKeepsTarget(s, a);
      } else {
        CallsApart(s, a, n);
      }
    }
  }

  lemma CallKeepsTarget(s: State, a: Action)
    requires Perform(s, a).Some? && OfCall(a)
    ensures var t := Perform(s, a).value;
            a.call in t.calls && !t.calls[a.call].CallEnded? ==> Subject(s, a) == Some(t.calls[a.call].id)
  {
  }

  lemma {:induction false} SettledForever(actions: seq<Action>, more: seq<Action>, id: Id)
    requires Run(actions + more).Some? && Run(actions).Some? && Settled(Run(actions).value, id)
    ensures var s, t := Run(actions).value, Run(actions + more).value;
            Settled(t, id) && (RecordAt(t, id) == RecordAt(s, id) || RecordAt(t, id).None?)
  {
    hide Settled, Perform, Invariant;
    if more == [] {
      assert actions + more == actions;
    } else {
      var last := |more| - 1;
      var before := actions + more[..last];
      assert actions + more == before + [more[last]];
      RunSnoc(before, more[last]);
      SettledForever(actions, more[..last], id);
      RunKeeps(before);
      SettledStays(Run(before).value, more[last], id);
    }
  }

  /** A stored answer changes only by being removed, whatever any thread still does. */
  lemma AnswerStands(actions: seq<Action>, more: seq<Action>, id: Id)
    requires Run(actions + more).Some? && Run(actions).Some?
    requires id in Run(actions).value.shared.records && Final(Run(actions).value.shared.records[id])
    ensures var s, t := Run(actions).value, Run(actions + more).value;
            RecordAt(t, id) == RecordAt(s, id) || RecordAt(t, id).None?
  {
    hide Run, TurnOk;
    RunKeeps(actions);
    var s := Run(actions).value;
    assert ClaimOk(s, id) && WorkerOk(s, id) && RecordOk(s, id);
    forall n | n in s.calls && (s.calls[n].CallLoading? || s.calls[n].CallSaving?) ensures s.calls[n].id != id {
      assert CallOk(s, n);
    }
    SettledForever(actions, more, id);
  }

  /** However things go on, the record of `id` is cancelled or gone. */
  ghost predicate StaysCancelled(actions: seq<Action>, id: Id) {
    forall more :: Run(actions + more).Some? ==>
      var r := RecordAt(Run(actions + more).value, id); r.None? || r.value.status == Cancelled
  }

  /** However things go on, there is no record of `id`. */
  ghost predicate StaysAbsent(actions: seq<Action>, id: Id) {
    forall more :: Run(actions + more).Some? ==> RecordAt(Run(actions + more).value, id).None?
  }

  /** A cancellation about to be saved is final if and only if no status update of the worker is past its
      unlock at that moment; in particular it is if it overtook none. */
  lemma CancelStands(actions: seq<Action>, n: nat)
    requires Run(actions).Some?
    requires n in Run(actions).value.calls && Run(actions).value.calls[n].CallSaving?
    ensures var s := Run(actions).value;
            var id := s.calls[n].id;
            && Run(actions + [CallSave(n, true)]).Some? && id in s.workers
            && (StaysCancelled(actions + [CallSave(n, true)], id) <==> !InFlight(s.workers[id]))
            && (Claims(s, id) == [ByCall(n, false)] ==> !InFlight(s.workers[id]))
  {
    hide Run, Invariant, Settled, StaysCancelled, Perform;
    var s, id := Run(actions).value, Run(actions).value.calls[n].id;
    RunKeeps(actions);
    SavedCancelled(s, n);
    var done, t := Next(actions, s, CallSave(n, true));
    RunKeeps(done);
    if InFlight(s.workers[id]) {
      OverwriteAhead(done, t, id);
    } else {
      SavedSettles(s, n);
      CancelledForGood(done, id);
    }
  }

  lemma CancelledForGood(actions: seq<Action>, id: Id)
    requires Run(actions).Some? && Settled(Run(actions).value, id)
    requires RecordAt(Run(actions).value, id).Some? && RecordAt(Run(actions).value, id).value.status == Cancelled
    ensures StaysCancelled(actions, id)
  {
    hide Run, Settled;
    forall more | Run(actions + more).Some?
      ensures var r := RecordAt(Run(actions + more).value, id); r.None? || r.value.status == Cancelled
    {
      SettledForever(actions, more, id);
    }
  }

  /** The status update loads the cancelled record, if it has not yet, and saves its own. */
  lemma OverwriteAhead(actions: seq<Action>, s: State, id: Id)
    requires Run(actions) == Some(s) && Invariant(s)
    requires id in s.workers && InFlight(s.workers[id]) && RecordAt(s, id).Some?
    ensures !StaysCancelled(actions, id)
  {
    hide Run, CallStep, TurnOk, RecordOk, CallOk, ClaimOk;
    assert WorkerOk(s, id);
    var more, done, t := [], actions, s;
    assert actions + [] == actions;
    if s.workers[id].MarkLoading? {
      done, t := Next(actions, s, MarkLoad(id));
      more := [MarkLoad(id)];
    }
    assert t.workers[id].MarkSaving? && t.workers[id].progress.status != Cancelled;
    var last, u := Next(done, t, MarkSave(id, true));
    assert last == actions + (more + [MarkSave(id, true)]);
    assert RecordAt(u, id).value.status != Cancelled;
  }

  lemma SavedSettles(s: State, n: nat)
    requires Invariant(s) && n in s.calls && s.calls[n].CallSaving?
    requires s.calls[n].id in s.workers && !InFlight(s.workers[s.calls[n].id])
    ensures Perform(s, CallSave(n, true)).Some? && Settled(Perform(s, CallSave(n, true)).value, s.calls[n].id)
  {
    hide TurnOk, RecordOk, WorkerStep;
    var id, t := s.calls[n].id, Perform(s, CallSave(n, true)).value;
    assert CallOk(s, n) && WorkerOk(s, id) && ClaimOk(s, id);
    forall k | k in t.calls && (t.calls[k].CallLoading? || t.calls[k].CallSaving?) ensures t.calls[k].id != id {
      assert k != n && CallOk(s, k);
    }
  }

  lemma SavedCancelled(s: State, n: nat)
    requires Invariant(s) && n in s.calls && s.calls[n].CallSaving?
    ensures Perform(s, CallSave(n, true)).Some?
    ensures var id, t := s.calls[n].id, Perform(s, CallSave(n, true)).value;
            && id in s.workers && t.workers == s.workers
            && (Claims(s, id) == [ByCall(n, false)] ==> !InFlight(s.workers[id]))
            && RecordAt(t, id).Some? && RecordAt(t, id).value.status == Cancelled
  {
    hide WorkerStep, TurnOk, RecordOk, ClaimOk;
    assert CallOk(s, n) && WorkerOk(s, s.calls[n].id);
  }

  /** A thread has passed its last look at the store and writes the record next, whatever is there. */
  ghost predicate Writing(s: State, id: Id) {
    || (id in s.workers && (s.workers[id].MarkSaving? || s.workers[id].Extending? || s.workers[id].Storing?
                            || s.workers[id].FailureSaving?))
    || exists n :: n in s.calls && s.calls[n].CallSaving? && s.calls[n].id == id
  }

  /** The worker may still win its claim and then store an answer. */
  predicate MayWin(s: State, id: Id) {
    id in s.workers &&
    match s.workers[id]
    case Unregistered => id !in s.stopped
    case Marking(p) => p.status == InProgress && id in s.shared.background && id !in s.stopped
    case MarkLoading(p) => p.status == InProgress && id in s.shared.background && id !in s.stopped
    case Working => id in s.shared.background && id !in s.stopped
    case Claiming(_) => id in s.shared.background
    case _ => false
  }

  ghost predicate Gone(s: State, id: Id) {
    id in s.workers && RecordAt(s, id).None? && !Writing(s, id) && !MayWin(s, id)
  }

  lemma ClaimedCannotWin(s: State, id: Id)
    requires Invariant(s) && Claims(s, id) != []
    ensures !MayWin(s, id)
  {
    hide TurnOk, RecordOk, CallOk, WorkerOk;
    assert ClaimOk(s, id);
  }

  /** In every reachable state, an absent record stays absent if and only if no thread is about to write it
      and the worker can no longer win its claim, which it cannot once the job is claimed. */
  lemma AbsentForGood(actions: seq<Action>, id: Id)
    requires Run(actions).Some? && id in Run(actions).value.workers && RecordAt(Run(actions).value, id).None?
    ensures var s := Run(actions).value;
            && (StaysAbsent(actions, id) <==> !Writing(s, id) && !MayWin(s, id))
            && (Claims(s, id) != [] ==> !MayWin(s, id))
  {
    hide Run, Writing, MayWin, Perform, Invariant;
    var s := Run(actions).value;
    RunKeeps(actions);
    if Claims(s, id) != [] {
      ClaimedCannotWin(s, id);
    }
    if Writing(s, id) || MayWin(s, id) {
      var more := WrittenAhead(actions, s, id);
      assert RecordAt(Run(actions + more).value, id).Some?;
    } else {
      assert Gone(s, id);
      forall more | Run(actions + more).Some? ensures RecordAt(Run(actions + more).value, id).None? {
        GoneForever(actions, more, id);
      }
    }
  }

  /** A deletion is final under exactly that condition on the moment before it. Once the job is claimed this
      says that no save is past its load, and no answer is on its way; a request that claimed the job
      itself, and overtook no status update, always deletes for good. */
  lemma DeleteStands(actions: seq<Action>, n: nat)
    requires Run(actions).Some?
    requires n in Run(actions).value.calls && Run(actions).value.calls[n].CallDeleting?
    requires Run(actions).value.calls[n].id in Run(actions).value.workers
    ensures var s := Run(actions).value;
            var id := s.calls[n].id;
            && Run(actions + [CallDelete(n, true)]).Some?
            && (StaysAbsent(actions + [CallDelete(n, true)], id) <==> !Writing(s, id) && !MayWin(s, id))
            && (Claims(s, id) == [ByCall(n, false)] ==> !Writing(s, id) && !MayWin(s, id))
  {
    hide Run, Invariant, StaysAbsent, Perform;
    var s, id := Run(actions).value, Run(actions).value.calls[n].id;
    RunKeeps(actions);
    DeletedOnly(s, n);
    ClaimedWrites(s, n);
    var done, t := Next(actions, s, CallDelete(n, true));
    AbsentForGood(done, id);
  }

  lemma DeletedOnly(s: State, n: nat)
    requires n in s.calls && s.calls[n].CallDeleting?
    ensures Perform(s, CallDelete(n, true)).Some?
    ensures var id, t := s.calls[n].id, Perform(s, CallDelete(n, true)).value;
            && t.workers == s.workers && RecordAt(t, id).None?
            && (Writing(t, id) <==> Writing(s, id)) && (MayWin(t, id) <==> MayWin(s, id))
  {
    hide WorkerStep;
    var id, t := s.calls[n].id, Perform(s, CallDelete(n, true)).value;
    assert forall k :: k != n ==> (k in t.calls <==> k in s.calls) && (k in s.calls ==> t.calls[k] == s.calls[k]);
    assert !t.calls[n].CallSaving?;
  }

  lemma ClaimedWrites(s: State, n: nat)
    requires Invariant(s) && n in s.calls && s.calls[n].CallDeleting? && s.calls[n].id in s.workers
    ensures Claims(s, s.calls[n].id) == [ByCall(n, false)] ==> !Writing(s, s.calls[n].id) && !MayWin(s, s.calls[n].id)
  {
    hide TurnOk, RecordOk;
    assert ClaimOk(s, s.calls[n].id) && WorkerOk(s, s.calls[n].id);
    forall k | k in s.calls && s.calls[k].CallSaving? && s.calls[k].id == s.calls[n].id
      ensures Claims(s, s.calls[n].id) != [ByCall(n, false)]
    {
      assert CallOk(s, k);
    }
  }

  lemma {:induction false} GoneForever(actions: seq<Action>, more: seq<Action>, id: Id)
    requires Run(actions + more).Some? && Run(actions).Some? && Gone(Run(actions).value, id)
    ensures Gone(Run(actions + more).value, id)
  {
    hide Gone, Perform;
    if more == [] {
      assert actions + more == actions;
    } else {
      var last := |more| - 1;
      var before := actions + more[..last];
      assert actions + more == before + [more[last]];
      RunSnoc(before, more[last]);
      GoneForever(actions, more[..last], id);
      GoneStays(Run(before).value, more[last], id);
    }
  }

  lemma GoneStays(s: State, a: Action, id: Id)
    requires Gone(s, id) && Perform(s, a).Some?
    ensures Gone(Perform(s, a).value, id)
  {
    hide Perform, MayWin;
    var t := Perform(s, a).value;
    GoneWorker(s, a, id);
    forall n | n in t.calls && t.calls[n].CallSaving? ensures t.calls[n].id != id {
      if OfCall(a) && a.call == n {
        CallKeepsTarget(s, a);
        if Subject(s, a) == Some(id) {
          GoneCall(s, a, id);
        }
      } else {
        CallsApart(s, a, n);
      }
    }
  }

  lemma GoneCall(s: State, a: Action, id: Id)
    requires Gone(s, id) && Perform(s, a).Some? && OfCall(a) && Subject(s, a) == Some(id)
    ensures var t := Perform(s, a).value;
            && id in t.workers && t.workers[id] == s.workers[id] && RecordAt(t, id).None? && !MayWin(t, id)
            && (a.call in t.calls ==> !t.calls[a.call].CallSaving?)
  {
    hide WorkerStep;
  }

  lemma GoneWorker(s: State, a: Action, id: Id)
    requires Gone(s, id) && Perform(s, a).Some?
    ensures var t := Perform(s, a).value;
            && id in t.workers && RecordAt(t, id).None? && !MayWin(t, id)
            && !t.workers[id].MarkSaving? && !t.workers[id].Extending? && !t.workers[id].Storing? && !t.workers[id].FailureSaving?
  {
    if Subject(s, a) != Some(id) {
      hide Perform;
      OthersSame(s, a, id);
    } else if OfCall(a) {
      GoneCall(s, a, id);
    } else {
      hide CallStep;
    }
  }

  /** What the worker does next on its way to the record. */
  function Onward(s: State, id: Id): (a: Action)
    requires id in s.workers
  {
    match s.workers[id]
    case Unregistered => Enter(id)
    case Marking(_) => MarkSection(id)
    case MarkLoading(_) => MarkLoad(id)
    case MarkSaving(_) => MarkSave(id, true)
    case Working => Work(id, Answered(Answer(false, true, "")))
    case Claiming(_) => ClaimSection(id)
    case Extending(_) => SaveTurn(id, true)
    case Storing(_) => StoreAnswer(id, true)
    case _ => FailureSave(id, true)
  }

  function Distance(w: Worker): nat {
    match w
    case Unregistered => 6
    case Marking(_) => 5
    case MarkLoading(_) => 4
    case Working => 3
    case Claiming(_) => 2
    case Extending(_) => 1
    case _ => 0
  }

  /** Each of these steps writes the record or brings the worker nearer to it. */
  ghost predicate Nearer(s: State, t: State, id: Id) {
    RecordAt(t, id).Some?
    || (id in s.workers && id in t.workers && Distance(t.workers[id]) < Distance(s.workers[id])
        && (MayWin(t, id) || t.workers[id].Extending? || t.workers[id].Storing?))
  }

  lemma LateOnward(s: State, id: Id)
    requires id in s.workers
    requires s.workers[id].MarkSaving? || s.workers[id].Extending? || s.workers[id].Storing? || s.workers[id].FailureSaving?
    ensures Perform(s, Onward(s, id)).Some? && Nearer(s, Perform(s, Onward(s, id)).value, id)
  {
    hide CallStep, MayWin;
  }

  lemma MarkingOnward(s: State, id: Id)
    requires id in s.workers && RecordAt(s, id).None? && MayWin(s, id)
    requires s.workers[id].Unregistered? || s.workers[id].Marking? || s.workers[id].MarkLoading?
    ensures Perform(s, Onward(s, id)).Some? && Nearer(s, Perform(s, Onward(s, id)).value, id)
  {
    hide CallStep;
  }

  lemma WorkingOnward(s: State, id: Id)
    requires id in s.workers && RecordAt(s, id).None? && MayWin(s, id)
    requires s.workers[id].Working? || s.workers[id].Claiming?
    ensures Perform(s, Onward(s, id)).Some? && Nearer(s, Perform(s, Onward(s, id)).value, id)
  {
    hide CallStep;
  }

  lemma {:induction false} WrittenAhead(actions: seq<Action>, s: State, id: Id) returns (more: seq<Action>)
    requires Run(actions) == Some(s) && id in s.workers && RecordAt(s, id).None?
    requires Writing(s, id) || MayWin(s, id)
    ensures Run(actions + more).Some? && RecordAt(Run(actions + more).value, id).Some?
    decreases Distance(s.workers[id])
  {
    hide Run, Perform;
    if n :| n in s.calls && s.calls[n].CallSaving? && s.calls[n].id == id {
      CallWrites(s, n);
      var done, t := Next(actions, s, CallSave(n, true));
      more := [CallSave(n, true)];
    } else {
      if s.workers[id].Unregistered? || s.workers[id].Marking? || s.workers[id].MarkLoading? {
        MarkingOnward(s, id);
      } else if s.workers[id].Working? || s.workers[id].Claiming? {
        WorkingOnward(s, id);
      } else {
        LateOnward(s, id);
      }
      var a := Onward(s, id);
      var done, t := Next(actions, s, a);
      if RecordAt(t, id).Some? {
        more := [a];
      } else {
        more := WrittenAhead(done, t, id);
        assert done + more == actions + ([a] + more);
        more := [a] + more;
      }
    }
  }

  lemma CallWrites(s: State, n: nat)
    requires n in s.calls && s.calls[n].CallSaving?
    ensures Perform(s, CallSave(n, true)).Some? && RecordAt(Perform(s, CallSave(n, true)).value, s.calls[n].id).Some?
  {
  }

  lemma Next(actions: seq<Action>, s: State, a: Action) returns (longer: seq<Action>, t: State)
    requires Run(actions) == Some(s) && Perform(s, a).Some?
    ensures longer == actions + [a] && Perform(s, a) == Some(t) && Run(longer) == Some(t)
  {
    hide Perform;
    longer, t := actions + [a], Perform(s, a).value;
    RunSnoc(actions, a);
  }

  // ---------------------------------------------------------------- what a record says

  /** The answer a worker carries from its work to the record. */
  function Carried(w: Worker): Option<Answer> {
    match w
    case Claiming(a) => Some(a)
    case Extending(a) => Some(a)
    case Storing(a) => Some(a)
    case _ => None
  }

  /** The status a worker is about to report. */
  function Reporting(w: Worker): Option<Progress> {
    match w
    case Marking(p) => Some(p)
    case MarkLoading(p) => Some(p)
    case MarkSaving(p) => Some(p)
    case FailureLoading(message) => Some(Progress(Errored, message))
    case FailureSaving(message) => Some(Progress(Errored, message))
    case _ => None
  }

  ghost predicate Happened(actions: seq<Action>, id: Id, message: string) {
    || message == "context" || Work(id, Erred(message)) in actions
    || (message == "persist" && (SaveTurn(id, false) in actions || StoreAnswer(id, false) in actions))
  }

  /** A report names no error but for one that happened: the work failed with it, ran out of time, or its
      answer could not be kept. */
  ghost predicate Reported(actions: seq<Action>, id: Id, p: Progress) {
    && (p.status in {Queued, InProgress} ==> p.message == "")
    && (p.status == Errored ==> Happened(actions, id, p.message))
    && p.status !in {Completed, Incomplete}
  }

  /** A record with an answer shows how it ended and whether it can be continued, and the work gave that
      answer; any other record shows the status it reports, and cannot be continued. */
  ghost predicate RecordSays(actions: seq<Action>, id: Id, r: Record) {
    RecordTells(actions, id, r) && (r.payload.Report? ==> Blames(actions, id, r.payload.progress))
  }

  ghost predicate RecordTells(actions: seq<Action>, id: Id, r: Record) {
    match r.payload
    case Reply(a) =>
      && Work(id, Answered(a)) in actions
      && (r.status == Incomplete <==> a.truncated) && (r.status == Completed <==> !a.truncated)
      && (r.continuable <==> a.portable)
    case Report(p) => r.status == p.status && !r.continuable && (p.status != Cancelled ==> Reported(actions, id, p))
  }

  ghost predicate Blames(actions: seq<Action>, id: Id, p: Progress) {
    p.message == "" || Happened(actions, id, p.message)
  }

  /** Whatever is about to be reported, by the job, its worker or a request, names no error that did not happen. */
  ghost predicate Fair(actions: seq<Action>, s: State, id: Id) {
    && (id in s.shared.background ==> Blames(actions, id, s.shared.background[id]))
    && (id in s.workers && Reporting(s.workers[id]).Some? ==> Blames(actions, id, Reporting(s.workers[id]).value))
    && (id in s.shared.records && s.shared.records[id].payload.Report? ==>
          Blames(actions, id, s.shared.records[id].payload.progress))
  }

  ghost predicate CallFair(actions: seq<Action>, s: State, n: nat) {
    n in s.calls && (s.calls[n].CallLoading? || s.calls[n].CallSaving?) ==>
      Blames(actions, s.calls[n].id, s.calls[n].progress)
  }

  ghost predicate AllFair(actions: seq<Action>, s: State) {
    (forall id :: Fair(actions, s, id)) && forall n :: CallFair(actions, s, n)
  }

  lemma FairStep(actions: seq<Action>, s: State, a: Action)
    requires AllFair(actions, s) && Perform(s, a).Some?
    ensures AllFair(actions + [a], Perform(s, a).value)
  {
    hide Perform, Fair, CallFair;
    var more, t := actions + [a], Perform(s, a).value;
    FairMore(actions, a, s);
    forall id ensures Fair(more, t, id) {
      if OfCall(a) {
        FairCall(more, s, a, id);
      } else {
        FairWork(more, s, a, id);
      }
    }
    forall n ensures CallFair(more, t, n) {
      FairRequest(more, s, a, n);
    }
  }

  lemma FairMore(actions: seq<Action>, a: Action, s: State)
    requires AllFair(actions, s)
    ensures AllFair(actions + [a], s)
  {
    assert forall b :: b in actions ==> b in actions + [a];
    forall id ensures Fair(actions + [a], s, id) {
      assert Fair(actions, s, id);
    }
    forall n ensures CallFair(actions + [a], s, n) {
      assert CallFair(actions, s, n);
    }
  }

  lemma FairCall(actions: seq<Action>, s: State, a: Action, id: Id)
    requires AllFair(actions, s) && Perform(s, a).Some? && OfCall(a)
    ensures Fair(actions, Perform(s, a).value, id)
  {
    assert Fair(actions, s, id) && CallFair(actions, s, a.call);
  }

  lemma FairWork(actions: seq<Action>, s: State, a: Action, id: Id)
    requires AllFair(actions, s) && Perform(s, a).Some? && !OfCall(a) && a in actions
    ensures Fair(actions, Perform(s, a).value, id)
  {
    assert Fair(actions, s, id) && Fair(actions, s, a.id);
    if !a.Start? && !a.Expire? && !a.TimeOut? {
      hide Perform;
      if a.id == id {
        StepFair(actions, s, a);
      } else {
        StepFairToOthers(actions, s, a, id);
      }
    }
  }

  lemma StepFair(actions: seq<Action>, s: State, a: Action)
    requires !OfCall(a) && !a.Start? && !a.Expire? && !a.TimeOut? && a in actions
    requires WorkerStep(s, a).Some? && Fair(actions, s, a.id)
    ensures Fair(actions, WorkerStep(s, a).value, a.id)
  {
  }

  lemma StepFairToOthers(actions: seq<Action>, s: State, a: Action, id: Id)
    requires !OfCall(a) && !a.Start? && !a.Expire? && !a.TimeOut? && a.id != id
    requires WorkerStep(s, a).Some? && Fair(actions, s, id)
    ensures Fair(actions, WorkerStep(s, a).value, id)
  {
    hide Happened;
  }

  lemma FairRequest(actions: seq<Action>, s: State, a: Action, n: nat)
    requires AllFair(actions, s) && Perform(s, a).Some?
    ensures CallFair(actions, Perform(s, a).value, n)
  {
    assert CallFair(actions, s, n);
    if OfCall(a) {
      hide WorkerStep, Happened;
      if a.call in s.calls && !s.calls[a.call].CallEnded? {
        assert Fair(actions, s, s.calls[a.call].id);
      }
    } else {
      CallsAlone(s, a);
    }
  }

  lemma CallsAlone(s: State, a: Action)
    requires Perform(s, a).Some? && !OfCall(a)
    ensures Perform(s, a).value.calls == s.calls
  {
    hide CallStep;
  }

  lemma {:induction false} RunFair(actions: seq<Action>)
    requires Run(actions).Some?
    ensures AllFair(actions, Run(actions).value)
  {
    hide Perform, Fair, CallFair;
    if actions == [] {
      NothingFair();
    } else {
      hide AllFair;
      var before, a := actions[..|actions| - 1], actions[|actions| - 1];
      RunFair(before);
      FairStep(before, Run(before).value, a);
      assert actions == before + [a];
    }
  }

  lemma NothingFair()
    ensures AllFair([], INITIAL)
  {}

  ghost predicate Says(actions: seq<Action>, s: State, id: Id) {
    && (id in s.shared.records ==> RecordTells(actions, id, s.shared.records[id]))
    && (id in s.workers ==>
          && (Carried(s.workers[id]).Some? ==> Work(id, Answered(Carried(s.workers[id]).value)) in actions)
          && (Reporting(s.workers[id]).Some? ==> Reported(actions, id, Reporting(s.workers[id]).value)))
  }

  lemma SaysMore(actions: seq<Action>, a: Action, s: State, id: Id)
    requires Says(actions, s, id)
    ensures Says(actions + [a], s, id)
  {
    assert forall b :: b in actions ==> b in actions + [a];
  }

  lemma SaysStep(actions: seq<Action>, s: State, a: Action, id: Id)
    requires Invariant(s) && Perform(s, a).Some? && Says(actions, s, id)
    ensures Says(actions + [a], Perform(s, a).value, id)
  {
    hide Says;
    SaysMore(actions, a, s, id);
    if Subject(s, a) != Some(id) {
      hide Perform, Invariant;
      OthersSame(s, a, id);
      SaysAlike(actions + [a], s, Perform(s, a).value, id);
    } else if OfCall(a) {
      CallSays(actions + [a], s, a, id);
    } else if a.Start? || a.Enter? || a.Work? || a.Expire? || a.TimeOut? {
      WorkSays(actions + [a], s, a);
    } else if a.MarkSection? || a.MarkLoad? || a.MarkSave? || a.ClaimSection? {
      MarkSays(actions + [a], s, a);
    } else {
      DeliverySays(actions + [a], s, a);
    }
  }

  lemma SaysAlike(actions: seq<Action>, s: State, t: State, id: Id)
    requires Says(actions, s, id) && Same(s, t, id)
    ensures Says(actions, t, id)
  {
  }

  lemma CallSays(actions: seq<Action>, s: State, a: Action, id: Id)
    requires Invariant(s) && Perform(s, a).Some? && Says(actions, s, id) && OfCall(a) && Subject(s, a) == Some(id)
    ensures Says(actions, Perform(s, a).value, id)
  {
    hide WorkerStep, ClaimOk, WorkerOk, RecordOk, TurnOk;
    if a.CallSave? {
      assert CallOk(s, a.call);
    }
  }

  lemma WorkSays(actions: seq<Action>, s: State, a: Action)
    requires Perform(s, a).Some? && (a.Start? || a.Enter? || a.Work? || a.Expire? || a.TimeOut?) && a in actions
    requires Says(actions, s, a.id)
    ensures Says(actions, Perform(s, a).value, a.id)
  {
    hide CallStep;
  }

  lemma MarkSays(actions: seq<Action>, s: State, a: Action)
    requires Perform(s, a).Some? && (a.MarkSection? || a.MarkLoad? || a.MarkSave? || a.ClaimSection?)
    requires Invariant(s) && Says(actions, s, a.id)
    ensures Says(actions, Perform(s, a).value, a.id)
  {
    hide CallStep, RecordOk, TurnOk, ClaimOk, CallOk;
    assert WorkerOk(s, a.id);
  }

  lemma DeliverySays(actions: seq<Action>, s: State, a: Action)
    requires a.SaveTurn? || a.StoreAnswer? || a.FailureLoad? || a.FailureSave? || a.Release?
    requires Perform(s, a).Some? && Says(actions, s, a.id) && a in actions
    ensures Says(actions, Perform(s, a).value, a.id)
  {
    hide CallStep;
  }

  lemma {:induction false} RunSays(actions: seq<Action>, id: Id)
    requires Run(actions).Some?
    ensures Says(actions, Run(actions).value, id)
  {
    hide Perform, Invariant;
    if actions == [] {
    } else {
      hide Says;
      var before, a := actions[..|actions| - 1], actions[|actions| - 1];
      RunSays(before, id);
      RunKeeps(before);
      SaysStep(before, Run(before).value, a, id);
      assert actions == before + [a];
    }
  }

  /** In every reachable state: a record that holds an answer holds one the work gave, incomplete exactly if
      it was cut at its limit and completed otherwise, continuable exactly if the answer is; every other
      record says what it reports, and reports no error that did not happen. */
  lemma RecordsSay(actions: seq<Action>, id: Id)
    requires Run(actions).Some? && id in Run(actions).value.shared.records
    ensures RecordSays(actions, id, Run(actions).value.shared.records[id])
  {
    hide Run;
    RunSays(actions, id);
    RunFair(actions);
    assert Fair(actions, Run(actions).value, id);
  }

  // ---------------------------------------------------------------- what conversations say

  /** Which plan a job was started with. */
  ghost predicate PlansKnown(actions: seq<Action>, s: State) {
    && (forall id :: id in s.workers ==> Start(id, PlanOf(s, id)) in actions)
    && (forall a :: a in actions && a.Start? ==> a.id in s.workers && PlanOf(s, a.id) == a.plan)
    && (forall a :: a in actions && a.SaveTurn? ==> a.id in s.workers)
  }

  lemma PlansStep(actions: seq<Action>, s: State, a: Action)
    requires PlansKnown(actions, s) && Perform(s, a).Some?
    ensures PlansKnown(actions + [a], Perform(s, a).value)
  {
    hide Perform;
    PlansStay(s, a);
    var more, t := actions + [a], Perform(s, a).value;
    forall id | id in t.workers ensures Start(id, PlanOf(t, id)) in more {
      assert id in s.workers ==> Start(id, PlanOf(s, id)) in actions;
    }
  }

  lemma PlansStay(s: State, a: Action)
    requires Perform(s, a).Some?
    ensures var t := Perform(s, a).value;
            if a.Start? then
              a.id !in s.workers && t.plans == s.plans[a.id := a.plan] && t.workers.Keys == s.workers.Keys + {a.id}
            else t.plans == s.plans && t.workers.Keys == s.workers.Keys
    ensures a.SaveTurn? ==> a.id in s.workers
  {
  }

  /** The history of a plan with the answer behind it, if that says anything. */
  predicate Turned(plan: Plan, a: Answer, t: Transcript) {
    && (t.continuable <==> a.portable)
    && t.messages == plan.history + if a.text == "" then [] else [a.text]
  }

  /** The transcript is the plan's turn that action `k` saved, and none was saved later. */
  ghost predicate SavedBy(actions: seq<Action>, k: nat, c: Id, t: Transcript, id: Id, plan: Plan, a: Answer) {
    && k < |actions| && actions[k] == SaveTurn(id, true)
    && Start(id, plan) in actions && plan.conversation == Some(c) && Work(id, Answered(a)) in actions
    && Turned(plan, a, t)
    && forall j, later :: k < j < |actions| && actions[j].SaveTurn? && actions[j].ok && Start(actions[j].id, later) in actions ==>
         later.conversation != Some(c)
  }

  ghost predicate ConversationSays(actions: seq<Action>, c: Id, t: Transcript) {
    exists k: nat, id, plan, a :: SavedBy(actions, k, c, t, id, plan, a)
  }

  lemma TurnSaved(actions: seq<Action>, s: State, id: Id, c: Id)
    requires PlansKnown(actions, s) && Says(actions, s, id) && Perform(s, SaveTurn(id, true)).Some?
    requires PlanOf(s, id).conversation == Some(c)
    ensures var t := Perform(s, SaveTurn(id, true)).value.shared.conversations;
            c in t && ConversationSays(actions + [SaveTurn(id, true)], c, t[c])
  {
    var more := actions + [SaveTurn(id, true)];
    var answer, t := s.workers[id].answer, Perform(s, SaveTurn(id, true)).value.shared.conversations;
    assert Start(id, PlanOf(s, id)) in more && Work(id, Answered(answer)) in more;
    assert SavedBy(more, |actions|, c, t[c], id, PlanOf(s, id), answer);
  }

  lemma TurnStays(actions: seq<Action>, s: State, a: Action, c: Id)
    requires PlansKnown(actions, s) && Perform(s, a).Some?
    requires c in s.shared.conversations && ConversationSays(actions, c, s.shared.conversations[c])
    requires !(a.SaveTurn? && a.ok && PlanOf(s, a.id).conversation == Some(c))
    ensures ConversationSays(actions + [a], c, s.shared.conversations[c])
  {
    hide Perform;
    var more, t := actions + [a], s.shared.conversations[c];
    PlansStep(actions, s, a);
    var k: nat, id, plan, answer :| SavedBy(actions, k, c, t, id, plan, answer);
    PlansStay(s, a);
    forall j, later | k < j < |more| && more[j].SaveTurn? && more[j].ok && Start(more[j].id, later) in more
      ensures later.conversation != Some(c)
    {
      if j < |actions| {
        assert more[j] == actions[j] && actions[j] in actions;
        assert Start(more[j].id, later) in actions;
      } else {
        assert Start(a.id, later) in actions;
      }
    }
    assert SavedBy(more, k, c, t, id, plan, answer);
  }

  lemma ConversationStep(s: State, a: Action, c: Id)
    requires Perform(s, a).Some?
    ensures var t := Perform(s, a).value.shared.conversations;
            !(a.SaveTurn? && a.ok && PlanOf(s, a.id).conversation == Some(c)) ==>
              (c in t <==> c in s.shared.conversations) && (c in t ==> t[c] == s.shared.conversations[c])
  {
  }

  lemma {:induction false} RunPlans(actions: seq<Action>)
    requires Run(actions).Some?
    ensures PlansKnown(actions, Run(actions).value)
  {
    hide Perform;
    if actions != [] {
      hide PlansKnown;
      var before, a := actions[..|actions| - 1], actions[|actions| - 1];
      RunPlans(before);
      PlansStep(before, Run(before).value, a);
      assert actions == before + [a];
    }
  }

  /** In every reachable state a conversation holds what its last turn to be saved made of it: the history that
      job's request resolved to, and the text the work answered, if there was any. */
  lemma {:induction false} ConversationsSay(actions: seq<Action>, c: Id)
    requires Run(actions).Some? && c in Run(actions).value.shared.conversations
    ensures ConversationSays(actions, c, Run(actions).value.shared.conversations[c])
  {
    hide Perform, PlansKnown, Says, ConversationSays;
    if actions != [] {
      var before, a := actions[..|actions| - 1], actions[|actions| - 1];
      var s := Run(before).value;
      RunPlans(before);
      assert actions == before + [a];
      ConversationStep(s, a, c);
      if a.SaveTurn? && a.ok && PlanOf(s, a.id).conversation == Some(c) {
        RunSays(before, a.id);
        TurnSaved(before, s, a.id, c);
      } else {
        ConversationsSay(before, c);
        TurnStays(before, s, a, c);
      }
    }
  }

  // ---------------------------------------------------------------- the races that remain

  /** A job whose worker is about to save the status `in_progress`. */
  lemma AboutToMark(id: Id, plan: Plan) returns (actions: seq<Action>, s: State)
    ensures Run(actions) == Some(s)
    ensures s.workers == map[id := MarkSaving(Progress(InProgress, ""))] && s.calls == map[] && s.claims == map[]
    ensures s.plans == map[id := plan] && s.stopped == {} && s.shared.conversations == map[]
    ensures s.shared.background == map[id := Progress(InProgress, "")]
    ensures s.shared.records == map[id := ProgressRecord(Progress(Queued, ""))]
  {
    hide Run, CallStep;
    s := Begun();
    actions, s := Next([], s, Start(id, plan));
    actions, s := Next(actions, s, Enter(id));
    actions, s := Next(actions, s, MarkSection(id));
    actions, s := Next(actions, s, MarkLoad(id));
  }

  lemma Begun() returns (s: State)
    ensures s == INITIAL && Run([]) == Some(s)
  {
    s := INITIAL;
  }

  /** A request cancels or deletes the job meanwhile, and has just saved `cancelled`. */
  lemma CancelledMeanwhile(id: Id, delete: bool) returns (actions: seq<Action>, s: State)
    ensures Run(actions) == Some(s)
    ensures s.workers == map[id := MarkSaving(Progress(InProgress, ""))]
    ensures s.calls == map[0 := if delete then CallDeleting(id) else CallEnded]
    ensures s.claims == map[id := [ByCall(0, true)]]
    ensures RecordAt(s, id) == Some(ProgressRecord(Progress(Cancelled, "")))
  {
    hide Run, WorkerStep;
    actions, s := AboutToMark(id, Plan(None, []));
    actions, s := Next(actions, s, Request(0, id, delete));
    WonOnce(s, id, ByCall(0, true));
    actions, s := Next(actions, s, CallClaim(0));
    actions, s := Next(actions, s, CallLoad(0));
    actions, s := Next(actions, s, CallSave(0, true));
  }

  /** A status update past its unlock overwrites the cancellation, and nothing ever corrects it. */
  lemma CancelOverwritten(id: Id, more: seq<Action>) returns (cancelled: seq<Action>, race: seq<Action>)
    ensures race == cancelled + [MarkSave(id, true)] && Run(cancelled).Some? && Run(race).Some?
    ensures RecordAt(Run(cancelled).value, id) == Some(ProgressRecord(Progress(Cancelled, "")))
    ensures RecordAt(Run(race).value, id) == Some(ProgressRecord(Progress(InProgress, "")))
    ensures Run(race + more).Some? ==>
              var r := RecordAt(Run(race + more).value, id); r.None? || r.value.status == InProgress
  {
    hide Run;
    var s;
    cancelled, s := CancelledMeanwhile(id, false);
    race, s := Next(cancelled, s, MarkSave(id, true));
    assert Settled(s, id);
    if Run(race + more).Some? {
      SettledForever(race, more, id);
    }
  }

  /** The same update puts back a record that the claiming request has deleted. */
  lemma DeletedComesBack(id: Id) returns (deleted: seq<Action>, race: seq<Action>)
    ensures race == deleted + [MarkSave(id, true)] && Run(deleted).Some? && Run(race).Some?
    ensures Run(deleted).value.calls == map[0 := CallEnded] && RecordAt(Run(deleted).value, id).None?
    ensures RecordAt(Run(race).value, id) == Some(ProgressRecord(Progress(InProgress, "")))
  {
    hide Run;
    var s;
    deleted, s := CancelledMeanwhile(id, true);
    deleted, s := Next(deleted, s, CallDelete(0, true));
    race, s := Next(deleted, s, MarkSave(id, true));
  }

  /** A worker that has just won its claim. */
  lemma Claimed(id: Id, plan: Plan, answer: Answer) returns (actions: seq<Action>, s: State)
    ensures Run(actions) == Some(s)
    ensures s.workers == map[id := Extending(answer)] && s.calls == map[] && s.plans == map[id := plan]
    ensures s.shared.conversations == map[] && id in s.shared.records && s.shared.background == map[]
    ensures s.claims == map[id := [ByWorker]]
  {
    hide Run, CallStep;
    actions, s := AboutToMark(id, plan);
    actions, s := Next(actions, s, MarkSave(id, true));
    actions, s := Next(actions, s, Work(id, Answered(answer)));
    WonOnce(s, id, ByWorker);
    actions, s := Next(actions, s, ClaimSection(id));
  }

  /** A deletion that comes after the worker's claim deletes only what was there: the answer follows. */
  lemma DeletedBeforeAnswer(id: Id, answer: Answer) returns (deleted: seq<Action>, race: seq<Action>)
    ensures Run(deleted).Some? && deleted <= race && Run(race).Some?
    ensures Run(deleted).value.calls == map[0 := CallEnded] && RecordAt(Run(deleted).value, id).None?
    ensures RecordAt(Run(race).value, id) == Some(AnswerRecord(answer))
  {
    hide Run;
    var s;
    deleted, s := Claimed(id, Plan(None, []), answer);
    deleted, s := Next(deleted, s, Request(0, id, true));
    deleted, s := Next(deleted, s, CallClaim(0));
    deleted, s := Next(deleted, s, CallDelete(0, true));
    race, s := Next(deleted, s, SaveTurn(id, true));
    race, s := Next(race, s, StoreAnswer(id, true));
  }

  /** The conversation is saved before the record: a job whose answer cannot be stored ends as failed
      although its answer extended the conversation. */
  lemma FailedYetTold(id: Id, plan: Plan, answer: Answer) returns (actions: seq<Action>)
    requires plan.conversation.Some?
    ensures Run(actions).Some?
    ensures var s := Run(actions).value;
            && s.shared.conversations == map[plan.conversation.value := TranscriptOf(plan, answer)]
            && RecordAt(s, id).Some? && RecordAt(s, id).value.status == Errored
  {
    hide Run;
    var s;
    actions, s := Claimed(id, plan, answer);
    actions, s := Next(actions, s, SaveTurn(id, true));
    actions, s := Next(actions, s, StoreAnswer(id, false));
    actions, s := Next(actions, s, FailureLoad(id));
    actions, s := Next(actions, s, FailureSave(id, true));
  }

  /** How far a job has come decides whether it extended its conversation. */
  ghost predicate ToldSoFar(actions: seq<Action>, s: State, id: Id) {
    var done := StoreAnswer(id, false) in actions;
    var failed := FailureLoad(id) in actions;
    var tells := PlanOf(s, id).conversation.Some?;
    if id !in s.workers then !done && !failed && id !in s.told
    else
      match s.workers[id]
      case Storing(_) => !done && !failed && (id in s.told <==> tells)
      case FailureLoading(_) => !failed && (id in s.told <==> tells && done)
      case FailureSaving(_) => failed && (id in s.told <==> tells && done)
      case Releasing => failed ==> (id in s.told <==> tells && done)
      case Ended => failed ==> (id in s.told <==> tells && done)
      case _ => !done && !failed && id !in s.told
  }

  lemma TellingStep(actions: seq<Action>, s: State, a: Action, id: Id)
    requires ToldSoFar(actions, s, id) && Perform(s, a).Some?
    ensures ToldSoFar(actions + [a], Perform(s, a).value, id)
  {
    hide CallStep;
    if Subject(s, a) != Some(id) || OfCall(a) {
      hide Perform;
      PlansKept(s, a, id);
    } else if !a.Start? {
      PlansApart(s, a, id);
    }
  }

  lemma PlansKept(s: State, a: Action, id: Id)
    requires Perform(s, a).Some? && (Subject(s, a) != Some(id) || OfCall(a))
    ensures var t := Perform(s, a).value;
            && PlanOf(t, id) == PlanOf(s, id) && (id in t.told <==> id in s.told)
            && (id in t.workers <==> id in s.workers) && (id in s.workers ==> t.workers[id] == s.workers[id])
            && a != StoreAnswer(id, false) && a != FailureLoad(id)
  {
    hide WorkerStep, CallStep, Perform, PlanOf;
    PlansApart(s, a, id);
    if OfCall(a) {
      CallsKeepWorkers(s, a);
    } else {
      OthersSame(s, a, id);
    }
  }

  lemma CallsKeepWorkers(s: State, a: Action)
    requires Perform(s, a).Some? && OfCall(a)
    ensures Perform(s, a).value.workers == s.workers && Perform(s, a).value.told == s.told
  {
  }

  lemma PlansApart(s: State, a: Action, id: Id)
    requires Perform(s, a).Some? && !(a.Start? && a.id == id)
    ensures PlanOf(Perform(s, a).value, id) == PlanOf(s, id)
  {
  }

  lemma {:induction false} RunTells(actions: seq<Action>, id: Id)
    requires Run(actions).Some?
    ensures ToldSoFar(actions, Run(actions).value, id)
  {
    hide Perform;
    if actions != [] {
      hide ToldSoFar;
      var before, a := actions[..|actions| - 1], actions[|actions| - 1];
      assert actions == before + [a];
      RunTells(before, id);
      TellingStep(before, Run(before).value, a, id);
    }
  }

  /** A job whose delivery failed, in any run, has extended its conversation if and only if what failed was
      storing the answer; and a worker about to store has extended it, if its plan names one. */
  lemma FailedToldExactly(actions: seq<Action>, id: Id)
    requires Run(actions).Some? && id in Run(actions).value.workers
    ensures var s := Run(actions).value;
            && (s.workers[id].FailureLoading? || FailureLoad(id) in actions ==>
                  (id in s.told <==> PlanOf(s, id).conversation.Some? && StoreAnswer(id, false) in actions))
            && (s.workers[id].Storing? ==> (id in s.told <==> PlanOf(s, id).conversation.Some?))
  {
    hide Run;
    RunTells(actions, id);
  }
}
