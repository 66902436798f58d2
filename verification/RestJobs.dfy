/**
 The job objects of the proxy and the linked freelist they are recycled on, updated in place.

 The freelist of the state machine in RestProxy is the sequence `free` kept here beside the links.
 Each method is one function of the server run without interruption by other threads.  What it does to
 its job, to the messages and to the answers is a function on values; RestSequential proves that the
 sections of the state machine do the same.
 */
module RestJobs {
  import opened Bytes
  import opened RestProxy

  // ---- The functions of the server on values ----

  /** What the library calls of a handler or a callback return. */
  datatype Outcomes = Outcomes(enough: bool, makes: bool, opens: bool, allocates: bool, copies: bool, answers: bool,
                               closes: bool)

  /** How a handler or callback is done with its job: an operation is started, it is recycled, or `exit(1)`. */
  datatype Ending = Sends | Receives | Recycled | Exits

  /** The live messages with their bodies, and the replies the library keeps for contexts. */
  datatype Mail = Mail(heap: map<MsgId, Bytes>, kept: map<CtxId, MsgId>)

  /** The job and the messages afterwards, and the answer to its HTTP aio, if any. */
  datatype Result = Result(job: Job, mail: Mail, answer: Option<Response>, end: Ending)

  function FreeIn(l: Mail, m: Option<MsgId>): Mail {
    if m == None then l else l.(heap := l.heap - {m.value})
  }

  /** Closing a context frees the reply kept for it. */
  function CloseIn(l: Mail, c: Option<CtxId>): Mail {
    if c.Some? && c.value in l.kept then Mail(l.heap - {l.kept[c.value]}, l.kept - {c.value}) else l
  }

  /** Recycling clears a job, but not its aio slot; closing the context may throw. */
  function RecycleResult(job: Job, l: Mail, o: Outcomes): Result {
    var cleared, freed := job.(httpRes := None, msg := None), FreeIn(l, job.msg);
    if job.ctx.Some? && !o.closes then Result(cleared, freed, None, Exits)
    else Result(cleared.(ctx := None), CloseIn(freed, job.ctx), None, Recycled)
  }

  function FatalResult(job: Job, l: Mail, o: Outcomes): Result {
    var taken := job.(httpAio := None, httpRes := None);
    if !o.answers then Result(taken, l, None, Exits)
    else RecycleResult(taken, l, o).(answer := Some(ServerError))
  }

  /** A callback finds a reply in its slot when a receive has succeeded. */
  predicate Delivered(job: Job, l: Mail) {
    job.succeeded && job.state == RecvRep ==> job.slot.Holds? && job.slot.m in l.heap
  }

  function CallbackResult(job: Job, l: Mail, o: Outcomes): Result
    requires Delivered(job, l)
  {
    if !job.succeeded then FatalResult(job, l, o)
    else if job.state == SendReq then Result(job.(slot := Empty, state := RecvRep), l, None, Receives)
    else
      var body, freed := l.heap[job.slot.m], FreeIn(l, job.msg);
      var holding := job.(msg := Some(job.slot.m), slot := Empty);
      if !o.copies then FatalResult(holding, freed, o)
      else if !o.answers then Result(holding.(httpRes := Some(body)), freed, None, Exits)
      else RecycleResult(holding.(httpAio := None, httpRes := None), freed, o).(answer := Some(Page(body)))
  }

  function PutIn(l: Mail, m: MsgId, body: Bytes): Mail { l.(heap := l.heap[m := body]) }

  function SubmitResult(job: Job, l: Mail, a: AioId, data: Bytes, m: MsgId, o: Outcomes): Result {
    var parked := job.(httpAio := Some(a));
    if !o.allocates then FatalResult(parked, l, o)
    else Result(parked.(msg := None, slot := Holds(m), state := SendReq), PutIn(FreeIn(l, job.msg), m, data), None,
                Sends)
  }

  function HandleResult(job: Job, l: Mail, a: AioId, data: Bytes, c: CtxId, m: MsgId, o: Outcomes): Result {
    if !o.makes || !o.opens then
      var r := RecycleResult(if o.makes then job.(httpRes := Some([])) else job, l, o);
      if r.end == Exits then r else r.(answer := Some(Refused))
    else SubmitResult(job.(httpRes := Some([]), ctx := Some(c)), l, a, data, m, o)
  }

  // ---- The job objects ----

  class RestJob {
    var httpAio: Option<AioId>
    var httpRes: Option<Bytes>
    var state: JobState
    var msg: Option<MsgId>
    var slot: Slot
    var succeeded: bool
    var ctx: Option<CtxId>
    var next: RestJob?

    constructor ()
      ensures View() == NEW_JOB && next == null
    {
      httpAio, httpRes, state, msg, slot, succeeded, ctx, next := None, None, SendReq, None, Empty, true, None, null;
    }

    function View(): Job
      reads this
    {
      Job(httpAio, httpRes, state, msg, slot, succeeded, ctx)
    }
  }

  predicate Blank(job: Job) {
    job.httpAio == None && job.httpRes == None && job.msg == None && job.ctx == None
  }

  /** `s` is the list that starts at `head`: the links spell it out, end in null and never repeat a job. */
  ghost predicate Chain(head: RestJob?, s: seq<RestJob>)
    reads s
  {
    && head == (if s == [] then null else s[0])
    && (forall i {:trigger s[i].next} :: 0 <= i < |s| - 1 ==> s[i].next == s[i + 1])
    && (s != [] ==> s[|s| - 1].next == null)
    && (forall i, k :: 0 <= i < k < |s| ==> s[i] != s[k])
    && (forall i :: 0 <= i < |s| ==> Blank(s[i].View()))
  }

  lemma ChainTail(head: RestJob?, s: seq<RestJob>)
    requires Chain(head, s) && s != []
    ensures Chain(s[0].next, s[1..]) && s[0] !in s[1..]
  {
    var t := s[1..];
    forall i | 0 <= i < |t| ensures t[i] == s[i + 1] && t[i].next == s[i + 1].next && Blank(t[i].View()) {}
  }

  class JobPool {
    var freelist: RestJob?
    ghost var free: seq<RestJob>
    var answers: map<AioId, Response>
    var mail: Mail

    ghost predicate Valid()
      reads this, free
    {
      Chain(freelist, free)
    }

    constructor ()
      ensures Valid() && free == [] && answers == map[] && mail == Mail(map[], map[])
    {
      freelist, free, answers, mail := null, [], map[], Mail(map[], map[]);
    }

    /** A job that is checked out, with its link to the list taken. */
    ghost predicate Taken(job: RestJob)
      reads this, free, job
    {
      Valid() && job !in free && job.next == null
    }

    /** The freelist with the job at its head if it was recycled. */
    ghost function FreeAfter(rest: seq<RestJob>, job: RestJob, end: Ending): seq<RestJob> {
      if end == Recycled then [job] + rest else rest
    }

    function AnswersAfter(given: map<AioId, Response>, a: AioId, r: Option<Response>): map<AioId, Response> {
      if r == None then given else given[a := r.value]
    }

    /** A cleared job goes to the head of the list. */
    method Push(job: RestJob)
      requires Taken(job) && Blank(job.View())
      modifies this`freelist, this`free, job`next
      ensures Valid() && free == [job] + old(free) && job.View() == old(job.View())
    {
      assert Chain(freelist, free);
      job.next := freelist;
      freelist := job;
      free := [job] + free;
      assert forall i :: 0 < i < |free| ==> free[i] == old(free)[i - 1] && free[i] != job;
    }

    /** Clearing and recycling a job. */
    method RestRecycleJob(job: RestJob, o: Outcomes) returns (end: Ending)
      requires Taken(job) && job.httpAio == None
      modifies this`freelist, this`free, this`mail, job
      ensures Valid() && free == FreeAfter(old(free), job, end)
      ensures Result(job.View(), mail, None, end) == RecycleResult(old(job.View()), old(mail), o)
      ensures end == Recycled || end == Exits
    {
      hide Chain;
      job.httpRes := None;
      mail := FreeIn(mail, job.msg);
      job.msg := None;
      if job.ctx.Some? && !o.closes {
        return Exits;
      }
      mail := CloseIn(mail, job.ctx);
      job.ctx := None;
      Push(job);
      return Recycled;
    }

    /** The head of the list if there is one, otherwise a new job, or null where the allocation throws. */
    method RestGetJob(enough: bool) returns (job: RestJob?)
      requires Valid()
      modifies this`freelist, this`free, if free == [] then {} else {free[0]}
      ensures Valid()
      ensures old(free) != [] ==> job == old(free)[0] && free == old(free)[1..] && job.View() == old(free[0].View())
      ensures old(free) == [] ==> free == [] && (job != null <==> enough)
      ensures old(free) == [] && enough ==> fresh(job) && job.View() == NEW_JOB
      ensures job != null ==> Taken(job) && Blank(job.View())
    {
      job := freelist;
      if job != null {
        ChainTail(freelist, free);
        freelist := job.next;
        free := free[1..];
        job.next := null;
        return;
      }
      if enough {
        job := new RestJob();
      }
    }

    /** A recycled job is the next one handed out, with nothing of its last request but the aio slot. */
    method RecycleThenGet(job: RestJob, o: Outcomes) returns (again: RestJob?)
      requires Taken(job) && job.httpAio == None && o.closes
      modifies this`freelist, this`free, this`mail, job
      ensures Valid() && again == job && free == old(free)
      ensures Blank(job.View()) && job.slot == old(job.slot)
    {
      hide Chain;
      var end := RestRecycleJob(job, o);
      again := RestGetJob(true);
    }

    /** The aio in the job is answered with an error page and the job recycled, unless a library call throws. */
    method RestHttpFatal(job: RestJob, o: Outcomes) returns (end: Ending, ghost r: Result)
      requires Taken(job) && job.httpAio.Some? && job.httpRes.Some?
      modifies this, job
      ensures r == FatalResult(old(job.View()), old(mail), o)
      ensures job.View() == r.job && mail == r.mail && end == r.end
      ensures Valid() && free == FreeAfter(old(free), job, end)
      ensures answers == AnswersAfter(old(answers), old(job.httpAio.value), r.answer)
    {
      hide Chain;
      r := FatalResult(job.View(), mail, o);
      var aio := job.httpAio.value;
      job.httpAio := None;
      job.httpRes := None;
      if !o.answers {
        return Exits, r;
      }
      answers := answers[aio := ServerError];
      end := RestRecycleJob(job, o);
    }

    /** The callback of a job's aio. */
    method RestJobCb(job: RestJob, o: Outcomes) returns (end: Ending, ghost r: Result)
      requires Taken(job) && job.httpAio.Some? && job.httpRes.Some? && Delivered(job.View(), mail)
      modifies this, job
      ensures r == CallbackResult(old(job.View()), old(mail), o)
      ensures job.View() == r.job && mail == r.mail && end == r.end
      ensures Valid() && free == FreeAfter(old(free), job, end)
      ensures answers == AnswersAfter(old(answers), old(job.httpAio.value), r.answer)
    {
      hide Chain;
      r := CallbackResult(job.View(), mail, o);
      if !job.succeeded {
        end, r := RestHttpFatal(job, o);
        return;
      }
      if job.state == SendReq {
        job.slot := Empty;
        job.state := RecvRep;
        return Receives, r;
      }
      end := RestReply(job, o);
    }

    /** The second case of the callback: the reply is taken out of the slot and answers the aio. */
    method RestReply(job: RestJob, o: Outcomes) returns (end: Ending)
      requires Taken(job) && job.httpAio.Some? && job.httpRes.Some? && Delivered(job.View(), mail)
      requires job.succeeded && job.state == RecvRep
      modifies this, job
      ensures var r := CallbackResult(old(job.View()), old(mail), o);
              && job.View() == r.job && mail == r.mail && end == r.end
              && answers == AnswersAfter(old(answers), old(job.httpAio.value), r.answer)
      ensures Valid() && free == FreeAfter(old(free), job, end)
    {
      hide Chain, RecycleResult, FatalResult;
      var reply := mail.heap[job.slot.m];
      mail := FreeIn(mail, job.msg);
      job.msg := Some(job.slot.m);
      job.slot := Empty;
      if !o.copies {
        ghost var r;
        end, r := RestHttpFatal(job, o);
        return;
      }
      job.httpRes := Some(reply);
      if !o.answers {
        return Exits;
      }
      answers := answers[job.httpAio.value := Page(job.httpRes.value)];
      job.httpRes := None;
      job.httpAio := None;
      end := RestRecycleJob(job, o);
    }

    /** The handler once the job has a response and a context: the request body goes into the job's slot. */
    method RestSubmit(job: RestJob, a: AioId, data: Bytes, m: MsgId, o: Outcomes) returns (end: Ending)
      requires Taken(job) && job.httpAio == None && job.httpRes.Some?
      modifies this, job
      ensures var r := SubmitResult(old(job.View()), old(mail), a, data, m, o);
              && job.View() == r.job && mail == r.mail && end == r.end
              && answers == AnswersAfter(old(answers), a, r.answer)
      ensures Valid() && free == FreeAfter(old(free), job, end)
    {
      hide Chain;
      job.httpAio := Some(a);
      if !o.allocates {
        ghost var r;
        end, r := RestHttpFatal(job, o);
        return;
      }
      mail := FreeIn(mail, job.msg);
      job.msg := None;
      mail := PutIn(mail, m, data);
      job.slot := Holds(m);
      job.state := SendReq;
      return Sends;
    }

    /** The handler for a checked-out job. */
    method RestServe(job: RestJob, a: AioId, data: Bytes, c: CtxId, m: MsgId, o: Outcomes) returns (end: Ending)
      requires Taken(job) && Blank(job.View())
      modifies this, job
      ensures var r := HandleResult(old(job.View()), old(mail), a, data, c, m, o);
              && job.View() == r.job && mail == r.mail && end == r.end
              && answers == AnswersAfter(old(answers), a, r.answer)
      ensures Valid() && free == FreeAfter(old(free), job, end)
    {
      hide Chain;
      if o.makes {
        job.httpRes := Some([]);
      }
      if !o.makes || !o.opens {
        end := RestRecycleJob(job, o);
        if end != Exits {
          answers := answers[a := Refused];
        }
        return;
      }
      job.ctx := Some(c);
      end := RestSubmit(job, a, data, m, o);
    }

    /** The HTTP handler for aio `a` with request body `data`; the job is null where its allocation throws. */
    method RestHandle(a: AioId, data: Bytes, c: CtxId, m: MsgId, o: Outcomes) returns (job: RestJob?, end: Ending)
      requires Valid()
      modifies this, if free == [] then {} else {free[0]}
      ensures Valid()
      ensures job == null <==> old(free) == [] && !o.enough
      ensures job == null ==> end == Exits && free == [] && answers == old(answers) && mail == old(mail)
      ensures job != null ==>
                var rest := if old(free) == [] then [] else old(free)[1..];
                var r := HandleResult(if old(free) == [] then NEW_JOB else old(free[0].View()), old(mail), a, data,
                                      c, m, o);
                && (old(free) != [] ==> job == old(free)[0])
                && job.View() == r.job && mail == r.mail && end == r.end
                && answers == AnswersAfter(old(answers), a, r.answer)
                && free == FreeAfter(rest, job, end)
    {
      job := RestGetJob(o.enough);
      if job == null {
        return job, Exits;
      }
      end := RestServe(job, a, data, c, m, o);
    }
  }
}
