/** Packet-registration checks (common/src/util.rs) and the start-up outcome both server
    generations derive from them. */
module Registration {
  import opened Common

  /** The outcome of registering one packet type with the transport. */
  datatype RegisterResult = Registered | RegisterFailed(error: string)

  /** One `error!` line logged for a failed registration. */
  datatype LogLine = LogLine(side: string, error: string)

  /** What a server's start-up system ends in. */
  datatype StartupOutcome =
    | Started            // all packets registered and the transport bound
    | ReceivePanic       // "Failed to register all receive packets"
    | SendPanic          // "Failed to register all send packets"
    | TransportPanic     // `init_server(..).unwrap()` failed

  /** Every registration in the list succeeded. */
  predicate AllRegistered(results: seq<RegisterResult>)
  {
    forall i | 0 <= i < |results| :: results[i].Registered?
  }

  /** The errors of the failed registrations, in order. */
  function Failures(results: seq<RegisterResult>): seq<string>
  {
    if results == [] then []
    else Failures(results[..|results| - 1])
         + (if Last(results).RegisterFailed? then [Last(results).error] else [])
  }

  /** The log prefix: `is_client` selects it and nothing else. */
  function Side(isClient: bool): string
  {
    if isClient then "client" else "server"
  }

  /** `validate_register_results`: true iff every result is Ok; each failure is logged
      with the side's prefix. */
  method ValidateRegisterResults(isClient: bool, results: seq<RegisterResult>) returns (ok: bool, log: seq<LogLine>)
    ensures ok <==> AllRegistered(results)
    ensures |log| == |Failures(results)|
    ensures forall k | 0 <= k < |log| :: log[k] == LogLine(Side(isClient), Failures(results)[k])
  {
    var hasError := false;
    log := [];
    var i := 0;
    while i < |results|
      invariant 0 <= i <= |results|
      invariant hasError <==> !AllRegistered(results[..i])
      invariant |log| == |Failures(results[..i])|
      invariant forall k | 0 <= k < |log| :: log[k] == LogLine(Side(isClient), Failures(results[..i])[k])
    {
      assert results[..i + 1][..i] == results[..i];
      if results[i].RegisterFailed? {
        log := log + [LogLine(Side(isClient), results[i].error)];
        hasError := true;
      }
      i := i + 1;
    }
    assert results[..i] == results;
    ok := !hasError;
  }

  /** The verdict does not depend on the order of the results. */
  lemma AllRegisteredOrderFree(a: seq<RegisterResult>, b: seq<RegisterResult>)
    requires multiset(a) == multiset(b)
    ensures AllRegistered(a) <==> AllRegistered(b)
  {
    if !AllRegistered(a) {
      var i :| 0 <= i < |a| && !a[i].Registered?;
      assert a[i] in multiset(b);
    }
    if !AllRegistered(b) {
      var j :| 0 <= j < |b| && !b[j].Registered?;
      assert b[j] in multiset(a);
    }
  }

  /** A failure anywhere makes the verdict false, and the empty list passes. */
  lemma FailureIsFatal(a: seq<RegisterResult>, b: seq<RegisterResult>, error: string)
    ensures !AllRegistered(a + [RegisterFailed(error)] + b)
    ensures AllRegistered([])
  {
    assert (a + [RegisterFailed(error)] + b)[|a|] == RegisterFailed(error);
  }

  /** Exactly the failures are logged: the log is empty iff everything registered. */
  lemma {:induction false} FailuresEmptyIffAllRegistered(results: seq<RegisterResult>)
    ensures Failures(results) == [] <==> AllRegistered(results)
  {
    if results != [] {
      var front := results[..|results| - 1];
      FailuresEmptyIffAllRegistered(front);
      if AllRegistered(front) && Last(results).Registered? {
        forall i | 0 <= i < |results| ensures results[i].Registered? {
          if i < |results| - 1 { assert results[i] == front[i]; }
        }
      }
      if AllRegistered(results) {
        forall i | 0 <= i < |front| ensures front[i].Registered? {
          assert front[i] == results[i];
        }
      }
    }
  }

  /** The gate shared by both `init_server`s: panic on a failed receive registration,
      then on a failed send registration, then on a transport that would not start. */
  function StartupGate(receivesOk: bool, sendsOk: bool, transportOk: bool): (r: StartupOutcome)
    ensures r == Started <==> receivesOk && sendsOk && transportOk
    ensures r == ReceivePanic <==> !receivesOk
    ensures r == SendPanic <==> receivesOk && !sendsOk
  {
    if !receivesOk then ReceivePanic
    else if !sendsOk then SendPanic
    else if !transportOk then TransportPanic
    else Started
  }
}
