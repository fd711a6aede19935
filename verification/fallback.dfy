/**
 * The first-success order in which both price services try their providers.
 * `ask(p, request)` stands for what provider p answers (or throws) when its
 * `getPrice` is called with request.
 */
module Fallback {
  import opened Results

  /**
   * Index of the first provider, from position `from` on, whose answer is a
   * success; None when every one of them fails.
   */
  function FirstSuccess<P, R, T, E>(providers: seq<P>, ask: (P, R) -> Result<T, E>, request: R, from: nat): (k: Option<nat>)
    decreases |providers| - from
    ensures k.Some? ==> from <= k.value < |providers| && ask(providers[k.value], request).Success?
    ensures k.Some? ==> forall j :: from <= j < k.value ==> ask(providers[j], request).Failure?
    ensures k.None? <==> forall j :: from <= j < |providers| ==> ask(providers[j], request).Failure?
  {
    if from >= |providers| then None
    else if ask(providers[from], request).Success? then Some(from)
    else FirstSuccess(providers, ask, request, from + 1)
  }

  /**
   * The providers that get called: every one up to and including the first
   * that succeeds, or all of them. Every provider called before the last one
   * threw.
   */
  function Called<P, R, T, E>(providers: seq<P>, ask: (P, R) -> Result<T, E>, request: R): (c: seq<P>)
    ensures c <= providers
    ensures |c| < |providers| ==> |c| > 0 && ask(c[|c| - 1], request).Success?
    ensures forall j :: 0 <= j < |c| - 1 ==> ask(c[j], request).Failure?
  {
    match FirstSuccess(providers, ask, request, 0)
    case Some(k) => providers[..k + 1]
    case None => providers
  }

  /** Once the first success is known, it is the only candidate. */
  lemma FirstSuccessUnique<P, R, T, E>(providers: seq<P>, ask: (P, R) -> Result<T, E>, request: R, k: nat)
    requires k < |providers| && ask(providers[k], request).Success?
    requires forall j :: 0 <= j < k ==> ask(providers[j], request).Failure?
    ensures FirstSuccess(providers, ask, request, 0) == Some(k)
  {
  }
}
