/**
 * prepareAxios's side effect on the target axios instance: the library's
 * response interceptors are registered once per instance, guarded by the
 * `usingIsomorphicPushInterceptors` flag stored on that instance.
 */
module Interceptors {
  import opened Wrappers
  import opened PushDecision

  /** A fulfilled/rejected handler pair in `interceptors.response`. */
  datatype ResponseHandler =
    | PushResponseInterceptors     // `responseInterceptor`, `responseRejectedInterceptor` of this library
    | OtherHandler(id: nat)        // a pair registered by anyone else

  /** The part of the target instance that prepareAxios reads and writes. */
  datatype TargetState = TargetState(usingPushInterceptors: bool, responseHandlers: seq<ResponseHandler>)

  /** The effect of one prepareAxios call, given whether a page response was passed. */
  function AfterPrepare(s: TargetState, hasPageResponse: bool): TargetState {
    if !hasPageResponse || s.usingPushInterceptors then s
    else TargetState(true, s.responseHandlers + [PushResponseInterceptors])
  }

  /** The effect of successive prepareAxios calls on the same instance. */
  function AfterPrepareAll(s: TargetState, hasPageResponse: seq<bool>): TargetState
    decreases |hasPageResponse|
  {
    if hasPageResponse == [] then s
    else AfterPrepareAll(AfterPrepare(s, hasPageResponse[0]), hasPageResponse[1..])
  }

  /** How many times the library's pair occurs among the handlers. */
  function Registrations(handlers: seq<ResponseHandler>): nat {
    if handlers == [] then 0
    else Registrations(handlers[..|handlers| - 1])
         + (if handlers[|handlers| - 1] == PushResponseInterceptors then 1 else 0)
  }

  /**
   * However many times an instance is wrapped, the pair is appended at most
   * once: exactly once when the flag was unset and some call had a page
   * response, never otherwise; the flag is set from then on.
   */
  lemma {:induction false} PrepareRegistersOnce(s: TargetState, hasPageResponse: seq<bool>)
    ensures AfterPrepareAll(s, hasPageResponse).usingPushInterceptors
         == (s.usingPushInterceptors || true in hasPageResponse)
    ensures AfterPrepareAll(s, hasPageResponse).responseHandlers
         == s.responseHandlers
            + (if !s.usingPushInterceptors && true in hasPageResponse then [PushResponseInterceptors] else [])
    decreases |hasPageResponse|
  {
    if hasPageResponse != [] {
      var rest := hasPageResponse[1..];
      assert hasPageResponse == [hasPageResponse[0]] + rest;
      PrepareRegistersOnce(AfterPrepare(s, hasPageResponse[0]), rest);
    }
  }

  /** The number of registered pairs grows by at most one, and not at all once the flag is set. */
  lemma RegistrationCountGrowsByAtMostOne(s: TargetState, hasPageResponse: seq<bool>)
    ensures Registrations(AfterPrepareAll(s, hasPageResponse).responseHandlers)
         <= Registrations(s.responseHandlers) + 1
    ensures s.usingPushInterceptors ==>
      Registrations(AfterPrepareAll(s, hasPageResponse).responseHandlers) == Registrations(s.responseHandlers)
  {
    PrepareRegistersOnce(s, hasPageResponse);
    var h := s.responseHandlers;
    assert (h + [PushResponseInterceptors])[..|h|] == h;
  }

  /** The axios instance being wrapped, with the fields prepareAxios touches. */
  class TargetAxios {
    var usingIsomorphicPushInterceptors: bool
    var responseHandlers: seq<ResponseHandler>

    /** A fresh instance: the flag is unset (`undefined`). */
    constructor (handlers: seq<ResponseHandler>)
      ensures !usingIsomorphicPushInterceptors && responseHandlers == handlers
    {
      usingIsomorphicPushInterceptors := false;
      responseHandlers := handlers;
    }

    function State(): TargetState
      reads this
    {
      TargetState(usingIsomorphicPushInterceptors, responseHandlers)
    }
  }

  /** What prepareAxios returns. */
  datatype Prepared =
    | Unwrapped                          // the target instance itself
    | Wrapper(pageResponse: PageResponse) // the push wrapper, its response pool seeded with the page response

  /**
   * prepareAxios on the server side: without a page response the target is
   * returned as it is; otherwise the interceptors are registered unless the
   * flag says they already are, and the wrapper is returned.
   */
  method PrepareAxios(pageResponse: Option<PageResponse>, target: TargetAxios) returns (w: Prepared)
    modifies target
    ensures target.State() == AfterPrepare(old(target.State()), pageResponse.Some?)
    ensures w == if pageResponse.Some? then Wrapper(pageResponse.value) else Unwrapped
  {
    if pageResponse.None? {
      return Unwrapped;
    }
    if !target.usingIsomorphicPushInterceptors {
      target.responseHandlers := target.responseHandlers + [PushResponseInterceptors];
      target.usingIsomorphicPushInterceptors := true;
    }
    w := Wrapper(pageResponse.value);
  }
}
