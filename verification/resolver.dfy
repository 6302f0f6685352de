/** The fallback loop of the chat route: candidates are posted to in list
    order until one answers with a status other than 404 or 405. The upstream
    is an oracle: `attempts[i]` is what posting to candidate `i` yields. */
module Resolver {
  import opened Wrappers
  import opened Json

  /** An upstream HTTP response: status, raw text, and the result of parsing
      the text as JSON (`None` when `response.json()` raises). */
  datatype Response = Response(status: nat, text: string, json: Option<Json>)

  /** The outcome of one post: a response, or an exception raised by the
      transport (timeout, refused connection, TLS failure, ...). */
  datatype Attempt = Received(response: Response) | TransportFailure(reason: string)

  /** "Not Found" and "Method Not Allowed": the candidate is taken not to exist. */
  predicate NotFoundClass(status: nat) {
    status == 404 || status == 405
  }

  /** An attempt that ends the search. */
  predicate Usable(a: Attempt) {
    a.Received? && !NotFoundClass(a.response.status)
  }

  /** The state after the loop: the response variable `response`, the index
      whose configuration was kept (`successful_config`), and the indices
      posted to, in the order they were posted to. */
  datatype Resolution = Resolution(held: Option<Response>, used: Option<nat>, tried: seq<nat>)

  /** Reference definition of the response variable after a run of attempts
      with no break: the last response received, scanning from the end, or
      `prior` when none of them produced one. */
  function LastReceived(s: seq<Attempt>, prior: Option<Response>): (r: Option<Response>)
    decreases |s|
  {
    if |s| == 0 then prior
    else if s[|s| - 1].Received? then Some(s[|s| - 1].response)
    else LastReceived(s[..|s| - 1], prior)
  }

  /** Consuming one attempt from the front: a response replaces the held
      one, a transport failure leaves it as it was. */
  lemma {:induction false} LastReceivedCons(a: Attempt, s: seq<Attempt>, prior: Option<Response>)
    ensures LastReceived([a] + s, prior)
         == LastReceived(s, if a.Received? then Some(a.response) else prior)
    decreases |s|
  {
    if |s| > 0 {
      assert ([a] + s)[..|[a] + s| - 1] == [a] + s[..|s| - 1];
      LastReceivedCons(a, s[..|s| - 1], prior);
    }
  }

  /** The loop from candidate `i` on, with `held` the response variable on
      entry. A transport failure is skipped without touching `held`; a 404
      or 405 is held and the loop moves on; any other status is held and
      ends the loop. */
  function ResolveFrom(attempts: seq<Attempt>, i: nat, held: Option<Response>): (r: Resolution)
    requires i <= |attempts|
    decreases |attempts| - i
    ensures |r.tried| <= |attempts| - i
    ensures forall k :: 0 <= k < |r.tried| ==> r.tried[k] == i + k
    ensures r.used.Some? <==> exists j :: i <= j < |attempts| && Usable(attempts[j])
    ensures r.used.Some? ==>
              && i <= r.used.value < |attempts|
              && Usable(attempts[r.used.value])
              && (forall j :: i <= j < r.used.value ==> !Usable(attempts[j]))
              && |r.tried| == r.used.value - i + 1
              && r.held == Some(attempts[r.used.value].response)
    ensures r.used.None? ==>
              |r.tried| == |attempts| - i && r.held == LastReceived(attempts[i..], held)
  {
    if i == |attempts| then
      Resolution(held, None, [])
    else
      var a := attempts[i];
      assert attempts[i..] == [a] + attempts[i + 1..];
      LastReceivedCons(a, attempts[i + 1..], held);
      match a
      case TransportFailure(_) =>
        var r := ResolveFrom(attempts, i + 1, held);
        Resolution(r.held, r.used, [i] + r.tried)
      case Received(resp) =>
        if !NotFoundClass(resp.status) then
          Resolution(Some(resp), Some(i), [i])
        else
          var r := ResolveFrom(attempts, i + 1, Some(resp));
          Resolution(r.held, r.used, [i] + r.tried)
  }

  /** The whole loop, entered with no response. Candidates are posted to
      strictly in list order, each at most once, and the loop stops right
      after the first usable one. */
  function Resolve(attempts: seq<Attempt>): (r: Resolution)
    ensures |r.tried| <= |attempts|
    ensures forall k :: 0 <= k < |r.tried| ==> r.tried[k] == k
    ensures forall k :: 0 <= k < |r.tried| - 1 ==> !Usable(attempts[k])
    ensures |r.tried| < |attempts| ==> |r.tried| > 0 && Usable(attempts[|r.tried| - 1])
    ensures |r.tried| == |attempts| && |attempts| > 0 ==> (r.used.Some? <==> Usable(attempts[|attempts| - 1]))
  {
    ResolveFrom(attempts, 0, None)
  }

  /** The `response is None or response.status_code in [404, 405]` test
      after the loop. */
  predicate Exhausted(held: Option<Response>) {
    held.None? || NotFoundClass(held.value.status)
  }

  /** With no response among the attempts, the held response is the one
      held before them. */
  lemma {:induction false} NothingReceivedKeepsPrior(s: seq<Attempt>, prior: Option<Response>)
    requires forall j :: 0 <= j < |s| ==> s[j].TransportFailure?
    ensures LastReceived(s, prior) == prior
    decreases |s|
  {
    if |s| > 0 {
      NothingReceivedKeepsPrior(s[..|s| - 1], prior);
    }
  }

  /** With some response among the attempts, the held response is one that
      an attempt produced, and every attempt after that one raised. */
  lemma {:induction false} LatestReceived(s: seq<Attempt>, prior: Option<Response>) returns (w: nat)
    requires exists j :: 0 <= j < |s| && s[j].Received?
    ensures LastReceived(s, prior).Some?
    ensures w < |s| && s[w] == Received(LastReceived(s, prior).value)
    ensures forall k :: w < k < |s| ==> s[k].TransportFailure?
    decreases |s|
  {
    var last := |s| - 1;
    if s[last].Received? {
      w := last;
    } else {
      var init := s[..last];
      var j :| 0 <= j < |s| && s[j].Received?;
      assert j < last && init[j] == s[j];
      w := LatestReceived(init, prior);
      assert forall k :: w < k < last ==> init[k] == s[k];
    }
  }

  /** First wins: when some candidate answers with a status other than 404
      or 405, the earliest such candidate is the one kept, its response is
      the one held, and nothing after it is posted to. */
  lemma FirstUsableWins(attempts: seq<Attempt>, k: nat)
    requires k < |attempts| && Usable(attempts[k])
    requires forall j :: 0 <= j < k ==> !Usable(attempts[j])
    ensures Resolve(attempts) == Resolution(Some(attempts[k].response), Some(k), seq(k + 1, j => j))
  {
  }

  /** The loop ends with no usable response exactly when no candidate
      answered with a status other than 404 or 405, whatever mix of
      transport failures and 404/405 answers they gave. */
  lemma ExhaustedIffNoUsable(attempts: seq<Attempt>)
    ensures Exhausted(Resolve(attempts).held)
        <==> forall j :: 0 <= j < |attempts| ==> !Usable(attempts[j])
  {
    var r := Resolve(attempts);
    if r.used.None? {
      assert attempts[0..] == attempts;
      if exists j :: 0 <= j < |attempts| && attempts[j].Received? {
        var w := LatestReceived(attempts, None);
        assert !Usable(attempts[w]);
      } else {
        NothingReceivedKeepsPrior(attempts, None);
      }
    }
  }

  /** When no candidate is usable, the held response is the last one that
      arrived; a transport failure never replaces it. */
  lemma HeldIsLatestResponse(attempts: seq<Attempt>)
    requires forall j :: 0 <= j < |attempts| ==> !Usable(attempts[j])
    ensures var h := Resolve(attempts).held;
      && (h.None? <==> forall j :: 0 <= j < |attempts| ==> attempts[j].TransportFailure?)
      && (h.Some? ==> exists j :: 0 <= j < |attempts| && attempts[j] == Received(h.value)
                        && forall k :: j < k < |attempts| ==> attempts[k].TransportFailure?)
  {
    assert attempts[0..] == attempts;
    if exists j :: 0 <= j < |attempts| && attempts[j].Received? {
      var w := LatestReceived(attempts, None);
    } else {
      NothingReceivedKeepsPrior(attempts, None);
    }
  }
}
