/** Ownership of pending requests across the language boundary: a request is a linear resource in a box whose
    second extraction panics. */
module PendingRequests {
  import opened Basics

  /** A request in flight, by number; a response or an error says whose it is. */
  type Id = nat

  datatype Response = Response(of: Id, payload: seq<byte>)

  datatype FastlyError = FastlyError(of: Id, code: nat)

  type Ending = Result<Response, FastlyError>

  function Of(e: Ending): Id {
    if e.Ok? then e.value.of else e.error.of
  }

  /** What the host has answered: to a poll, to a wait, and to a selection, which also says in which order the
      other requests come back. */
  datatype Answer = NotYet(id: Id) | Done(ending: Ending) | Selected(ending: Ending, others: seq<Id>)

  /** The `fastly` crate below the bindings, with a record of its answers. */
  class Host {
    ghost var answers: seq<Answer>

    constructor ()
      ensures answers == []
    {
      answers := [];
    }

    /** A response or an error for the request: the host's free choice. */
    method End(id: Id) returns (e: Ending)
      ensures Of(e) == id
    {
      if * {
        var code: nat := *;
        return Err(FastlyError(id, code));
      }
      var payload: seq<byte> := *;
      return Ok(Response(id, payload));
    }

    method Poll(id: Id) returns (a: Answer)
      modifies this
      ensures answers == old(answers) + [a]
      ensures a == NotYet(id) || (a.Done? && Of(a.ending) == id)
    {
      a := NotYet(id);
      if * {
        var e := End(id);
        a := Done(e);
      }
      answers := answers + [a];
    }

    method Wait(id: Id) returns (e: Ending)
      modifies this
      ensures answers == old(answers) + [Done(e)] && Of(e) == id
    {
      e := End(id);
      answers := answers + [Done(e)];
    }

    /** The selection: picks the request that became ready and returns the rest in any order. It panics on an
        empty list. */
    method Select(ids: seq<Id>) returns (r: Outcome<(Ending, seq<Id>)>)
      modifies this
      ensures r.Aborted? <==> ids == []
      ensures r.Aborted? ==> answers == old(answers)
      ensures r.Returned? ==> answers == old(answers) + [Selected(r.value.0, r.value.1)]
      ensures r.Returned? ==> multiset(ids) == multiset(r.value.1) + multiset{Of(r.value.0)}
    {
      if ids == [] {
        return Aborted;
      }
      var w: nat :| w < |ids|;
      var rest := ids[w + 1..] + ids[..w];
      assert ids == ids[..w] + [ids[w]] + ids[w + 1..];
      var e := End(ids[w]);
      answers := answers + [Selected(e, rest)];
      return Returned((e, rest));
    }

    /** A streamed send: an error, or nothing more to say. */
    method Send(id: Id) returns (error: Option<FastlyError>)
      modifies this
      ensures error.Some? ==> error.value.of == id && answers == old(answers) + [Done(Err(error.value))]
      ensures error.None? ==> answers == old(answers) + [NotYet(id)]
    {
      if * {
        var code: nat := *;
        answers := answers + [Done(Err(FastlyError(id, code)))];
        return Some(FastlyError(id, code));
      }
      answers := answers + [NotYet(id)];
      return None;
    }
  }

  /** The answer to the last question. */
  ghost function Last(host: Host): Answer
    requires host.answers != []
    reads host
  {
    host.answers[|host.answers| - 1]
  }

  /** The C++ `PendingRequest`: its box is null once it was moved out. */
  class PendingRequest {
    var req: Option<Id>

    constructor (id: Id)
      ensures req == Some(id)
    {
      req := Some(id);
    }

    /** `poll`: gives up the box, asks the host once, and returns the same request still pending, or its response
        or error, as the host said. */
    method Poll(host: Host) returns (r: Outcome<Polled>)
      requires req.Some?
      modifies this, host
      ensures req.None? && r.Returned?
      ensures |host.answers| == |old(host.answers)| + 1 && old(host.answers) <= host.answers
      ensures match Last(host)
              case NotYet(id) => r.value.Still? && fresh(r.value.pending) && r.value.pending.req == old(req) == Some(id)
              case Done(e) => r.value == Got(e) && Some(Of(e)) == old(req)
              case Selected(_, _) => false
    {
      var result := PendingRequestPoll(host, req.value);
      req := None;
      if result.IsResponse() {
        var response := PollResultIntoResponse(result);
        return if response.Aborted? then Aborted else Returned(Got(Ok(response.value)));
      } else if result.IsPending() {
        var pending := PollResultIntoPending(result);
        if pending.Aborted? {
          return Aborted;
        }
        var p := new PendingRequest(pending.value);
        return Returned(Still(p));
      } else {
        var error := PollResultIntoError(result);
        return if error.Aborted? then Aborted else Returned(Got(Err(error.value)));
      }
    }

    /** `wait`: the response or the error the host gave. */
    method Wait(host: Host) returns (r: Ending)
      requires req.Some?
      modifies this, host
      ensures req.None? && Some(Of(r)) == old(req)
      ensures host.answers == old(host.answers) + [Done(r)]
    {
      var id := req.value;
      req := None;
      var out, err := PendingRequestWait(host, id);
      if err.Some? {
        return Err(err.value);
      }
      return Ok(out.value);
    }
  }

  /** `m_http_request_pending_request_wait`: writes the response or the error to its out-parameters. */
  method PendingRequestWait(host: Host, id: Id) returns (out: Option<Response>, err: Option<FastlyError>)
    modifies host
    ensures |host.answers| == |old(host.answers)| + 1 && old(host.answers) <= host.answers
    ensures if err.Some? then Last(host) == Done(Err(err.value)) && err.value.of == id && out.None?
            else out.Some? && Last(host) == Done(Ok(out.value)) && out.value.of == id
  {
    var e := host.Wait(id);
    match e
    case Err(error) => return None, Some(error);
    case Ok(response) => return Some(response), None;
  }

  datatype Polled = Still(pending: PendingRequest) | Got(result: Ending)

  /** The Rust enum behind a poll. */
  datatype PollResult = PPending(id: Id) | PResponse(response: Response) | PError(error: FastlyError) {
    predicate IsResponse() {
      PResponse?
    }

    predicate IsPending() {
      PPending?
    }
  }

  /** `m_http_request_pending_request_poll`: the host's answer, sorted into the three variants. */
  method PendingRequestPoll(host: Host, id: Id) returns (r: PollResult)
    modifies host
    ensures |host.answers| == |old(host.answers)| + 1 && old(host.answers) <= host.answers
    ensures match Last(host)
            case NotYet(i) => i == id && r == PPending(id)
            case Done(Ok(response)) => response.of == id && r == PResponse(response)
            case Done(Err(error)) => error.of == id && r == PError(error)
            case Selected(_, _) => false
  {
    var a := host.Poll(id);
    match a
    case NotYet(i) => return PPending(i);
    case Done(Ok(response)) => return PResponse(response);
    case Done(Err(error)) => return PError(error);
  }

  // The conversions panic on the wrong variant.
  method PollResultIntoPending(result: PollResult) returns (r: Outcome<Id>)
    ensures r == if result.PPending? then Returned(result.id) else Aborted
  {
    match result
    case PPending(id) => return Returned(id);
    case _ => return Aborted;
  }

  method PollResultIntoResponse(result: PollResult) returns (r: Outcome<Response>)
    ensures r == if result.PResponse? then Returned(result.response) else Aborted
  {
    match result
    case PResponse(response) => return Returned(response);
    case _ => return Aborted;
  }

  method PollResultIntoError(result: PollResult) returns (r: Outcome<FastlyError>)
    ensures r == if result.PError? then Returned(result.error) else Aborted
  {
    match result
    case PError(error) => return Returned(error);
    case _ => return Aborted;
  }

  /** Polling up to `n` times over, each time the handle the last poll returned: no panic on the way, and at the
      end either one handle for the same request is left, after `n` answers that it was pending, or there is no
      handle and the last answer is returned. */
  method PollRepeatedly(host: Host, p: PendingRequest, n: nat) returns (r: Outcome<Polled>)
    requires p.req.Some?
    modifies p, host
    ensures r.Returned? && old(host.answers) <= host.answers
    ensures match r.value
            case Still(q) =>
              && q.req == old(p.req) && (q == p || (fresh(q) && p.req.None?))
              && AllNotYet(host.answers[|old(host.answers)|..], old(p.req).value, n)
            case Got(result) =>
              && p.req.None? && Some(Of(result)) == old(p.req)
              && |old(host.answers)| < |host.answers| <= |old(host.answers)| + n && Last(host) == Done(result)
  {
    var current := p;
    var i := 0;
    ghost var before := host.answers;
    while i < n
      invariant i <= n && before <= host.answers && AllNotYet(host.answers[|before|..], old(p.req).value, i)
      invariant current.req == old(p.req) && (current == p || (fresh(current) && p.req.None?))
      decreases n - i
    {
      r := current.Poll(host);
      if r.value.Got? {
        return;
      }
      current := r.value.pending;
      i := i + 1;
    }
    return Returned(Still(current));
  }

  ghost predicate AllNotYet(answers: seq<Answer>, id: Id, n: nat) {
    |answers| == n && forall i :: 0 <= i < n ==> answers[i] == NotYet(id)
  }

  /** `rust::Vec<BoxPendingRequest>`: boxes that are emptied in place. */
  class BoxVec {
    var boxes: seq<Option<Id>>

    constructor ()
      ensures boxes == []
    {
      boxes := [];
    }

    method Push(id: Id)
      modifies this
      ensures boxes == old(boxes) + [Some(id)]
    {
      boxes := boxes + [Some(id)];
    }

    /** `extract_req` on box `i`: panics if it is empty already. */
    method ExtractReq(i: nat) returns (r: Outcome<Id>)
      requires i < |boxes|
      modifies this
      ensures boxes == old(boxes)[i := None]
      ensures r == if old(boxes)[i].Some? then Returned(old(boxes)[i].value) else Aborted
    {
      var b := boxes[i];
      boxes := boxes[i := None];
      return if b.Some? then Returned(b.value) else Aborted;
    }
  }

  function Full(ids: seq<Id>): seq<Option<Id>> {
    seq(|ids|, i requires 0 <= i < |ids| => Some(ids[i]))
  }

  function Emptied(n: nat): seq<Option<Id>> {
    seq(n, i => None)
  }

  /** Empties every box of a vector, in order. */
  method ExtractAll(v: BoxVec, ghost ids: seq<Id>) returns (r: Outcome<seq<Id>>)
    requires v.boxes == Full(ids)
    modifies v
    ensures r == Returned(ids) && v.boxes == Emptied(|ids|)
  {
    var out: seq<Id> := [];
    var i := 0;
    while i < |v.boxes|
      invariant i <= |v.boxes| == |ids|
      invariant v.boxes == Emptied(i) + Full(ids)[i..]
      invariant out == ids[..i]
    {
      var id := v.ExtractReq(i);
      if id.Aborted? {
        return Aborted;
      }
      out := out + [id.value];
      i := i + 1;
    }
    assert ids[..i] == ids;
    return Returned(out);
  }

  /** `f_http_request_select`: the others are handed back before the result is looked at. */
  method FSelect(host: Host, reqs: BoxVec, ghost ids: seq<Id>, others: BoxVec)
    returns (r: Outcome<Ending>, ghost rest: seq<Id>)
    requires reqs != others && reqs.boxes == Full(ids) && others.boxes == []
    modifies host, reqs, others
    ensures r.Aborted? <==> ids == []
    ensures reqs.boxes == Emptied(|ids|)
    ensures r.Returned? ==> host.answers == old(host.answers) + [Selected(r.value, rest)]
    ensures r.Returned? ==> others.boxes == Full(rest)
    ensures r.Returned? ==> multiset(ids) == multiset(rest) + multiset{Of(r.value)}
  {
    rest := [];
    var extracted := ExtractAll(reqs, ids);
    if extracted.Aborted? {
      return Aborted, rest;
    }
    var selected := host.Select(extracted.value);
    if selected.Aborted? {
      return Aborted, rest;
    }
    var (res, xs) := selected.value;
    ghost var answers := host.answers;
    for i := 0 to |xs|
      invariant others.boxes == Full(xs[..i]) && reqs.boxes == Emptied(|ids|) && host.answers == answers
    {
      others.Push(xs[i]);
    }
    assert xs[..|xs|] == xs;
    rest := xs;
    match res
    case Ok(response) => return Returned(Ok(response)), rest;
    case Err(error) => return Returned(Err(error)), rest;
  }

  ghost predicate AllPending(reqs: seq<PendingRequest>, ids: seq<Id>)
    reads reqs
  {
    && |reqs| == |ids|
    && (forall i, j :: 0 <= i < j < |reqs| ==> reqs[i] != reqs[j])
    && forall i :: 0 <= i < |reqs| ==> reqs[i].req == Some(ids[i])
  }

  /** `select`: whether it ends with a response or an error, the requests given to it are, as a multiset, the one
      that became ready and the ones returned; no box is extracted twice, and every handle given is emptied. */
  method Select(host: Host, reqs: seq<PendingRequest>, ghost ids: seq<Id>)
    returns (r: Outcome<(Ending, seq<PendingRequest>)>, ghost rest: seq<Id>)
    requires AllPending(reqs, ids)
    modifies host, reqs
    ensures r.Returned? ==> host.answers == old(host.answers) + [Selected(r.value.0, rest)]
    ensures r.Aborted? <==> reqs == []
    ensures forall p :: p in reqs ==> p.req.None?
    ensures r.Returned? ==> multiset(ids) == multiset(rest) + multiset{Of(r.value.0)}
    ensures r.Returned? ==> AllPending(r.value.1, rest) && forall p :: p in r.value.1 ==> fresh(p)
  {
    var vecreqs := new BoxVec();
    var others := new BoxVec();
    for i := 0 to |reqs|
      invariant vecreqs.boxes == Full(ids[..i]) && others.boxes == [] && host.answers == old(host.answers)
      invariant forall j :: 0 <= j < i ==> reqs[j].req.None?
      invariant forall j :: i <= j < |reqs| ==> reqs[j].req == Some(ids[j])
    {
      vecreqs.Push(reqs[i].req.value);
      reqs[i].req := None;
    }
    assert ids[..|ids|] == ids;
    var res: Outcome<Ending>;
    res, rest := FSelect(host, vecreqs, ids, others);
    if res.Aborted? {
      return Aborted, rest;
    }
    var retOthers := Rebox(others, rest);
    return if retOthers.Aborted? then Aborted else Returned((res.value, retOthers.value)), rest;
  }

  /** The loop that turns the returned boxes into handles again. */
  method Rebox(others: BoxVec, ghost rest: seq<Id>) returns (r: Outcome<seq<PendingRequest>>)
    requires others.boxes == Full(rest)
    modifies others
    ensures r.Returned? && AllPending(r.value, rest) && others.boxes == Emptied(|rest|)
    ensures forall p :: p in r.value ==> fresh(p)
  {
    var out: seq<PendingRequest> := [];
    var i := 0;
    while i < |others.boxes|
      invariant i <= |others.boxes| == |rest|
      invariant others.boxes == Emptied(i) + Full(rest)[i..]
      invariant AllPending(out, rest[..i])
      invariant forall p :: p in out ==> fresh(p)
    {
      var id := others.ExtractReq(i);
      if id.Aborted? {
        return Aborted;
      }
      var p := new PendingRequest(id.value);
      out := out + [p];
      i := i + 1;
    }
    assert rest[..|rest|] == rest;
    return Returned(out);
  }

  /** The two boxes a streamed send hands over, each of which panics when it is taken a second time. */
  class AsyncStreamRes {
    var body: Option<Id>
    var req: Option<Id>

    constructor (id: Id)
      ensures body == Some(id) && req == Some(id)
    {
      body, req := Some(id), Some(id);
    }

    method TakeBody() returns (r: Outcome<Id>)
      modifies this
      ensures body.None? && req == old(req)
      ensures r == if old(body).Some? then Returned(old(body).value) else Aborted
    {
      var b := body;
      body := None;
      return if b.Some? then Returned(b.value) else Aborted;
    }

    method TakeReq() returns (r: Outcome<Id>)
      modifies this
      ensures req.None? && body == old(body)
      ensures r == if old(req).Some? then Returned(old(req).value) else Aborted
    {
      var q := req;
      req := None;
      return if q.Some? then Returned(q.value) else Aborted;
    }
  }

  /** `send_async_streaming`, once the backend is known: an error, or the request's body and its pending handle;
      neither box is taken twice. */
  method SendAsyncStreaming(host: Host, id: Id) returns (r: Outcome<Result<(Id, PendingRequest), FastlyError>>)
    modifies host
    ensures r.Returned?
    ensures match r.value
            case Ok(both) =>
              && both.0 == id && fresh(both.1) && both.1.req == Some(id)
              && host.answers == old(host.answers) + [NotYet(id)]
            case Err(error) => error.of == id && host.answers == old(host.answers) + [Done(Err(error))]
  {
    var error := host.Send(id);
    if error.Some? {
      return Returned(Err(error.value));
    }
    var res := new AsyncStreamRes(id);
    var body := res.TakeBody();
    var req := res.TakeReq();
    if body.Aborted? || req.Aborted? {
      return Aborted;
    }
    var p := new PendingRequest(req.value);
    return Returned(Ok((body.value, p)));
  }
}
