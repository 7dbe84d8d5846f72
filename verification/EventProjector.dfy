/** Pairing the contract's protocol events with the registry events that follow them. */
module EventProjector {
  import opened Wrappers
  import opened BnsModel

  datatype ProtocolEvent = ProtocolEvent(
    seq_: nat, eventType: Hash, actor: string, previousLogRoot: Hash, logRoot: Hash)

  datatype ContractEvent =
    | Protocol(protocol: ProtocolEvent)
    | Registry(event: RegistryEvent)
    | Router
    | Infrastructure

  datatype Projected =
    | ProjectedProtocol(protocol: ProtocolEvent)
    | ProjectedRecord(record: EventRecord)
    | ProjectedRouter
    | ProjectedInfrastructure

  /** Registry event and protocol event, joined into one record. */
  function Paired(p: ProtocolEvent, e: RegistryEvent, observedAt: nat): EventRecord {
    EventRecord(p.seq_, observedAt,
                ProjectedHash(p.seq_, p.eventType, p.previousLogRoot, p.logRoot, e),
                p.previousLogRoot, p.logRoot, e)
  }

  function Protocols(log: seq<ContractEvent>): seq<ProtocolEvent> {
    if log == [] then []
    else Protocols(log[..|log| - 1]) + if log[|log| - 1].Protocol? then [log[|log| - 1].protocol] else []
  }

  function Registries(log: seq<ContractEvent>): seq<RegistryEvent> {
    if log == [] then []
    else Registries(log[..|log| - 1]) + if log[|log| - 1].Registry? then [log[|log| - 1].event] else []
  }

  /** No prefix holds more registry events than protocol events. */
  predicate Covered(log: seq<ContractEvent>) {
    forall i | 0 <= i <= |log| :: |Registries(log[..i])| <= |Protocols(log[..i])|
  }

  /** The k-th registry event, with the seq and roots of the k-th protocol event. */
  function Pairs(log: seq<ContractEvent>, observedAt: nat): seq<EventRecord>
    requires |Registries(log)| <= |Protocols(log)|
  {
    seq(|Registries(log)|, k requires 0 <= k < |Registries(log)| =>
      Paired(Protocols(log)[k], Registries(log)[k], observedAt))
  }

  class Projector {
    var pending: seq<ProtocolEvent>  // protocol events whose registry event has not come yet

    constructor ()
      ensures pending == []
    {
      pending := [];
    }

    method ProjectEvent(event: ContractEvent, observedAt: nat) returns (r: Result<Projected, Error>)
      modifies this
      ensures event.Protocol? ==>
        r == Success(ProjectedProtocol(event.protocol)) && pending == old(pending) + [event.protocol]
      ensures event.Registry? && old(pending) != [] ==>
        && r == Success(ProjectedRecord(Paired(old(pending)[0], event.event, observedAt)))
        && pending == old(pending)[1..]
      ensures r.Failure? <==> event.Registry? && old(pending) == []
      ensures r.Failure? || event.Router? || event.Infrastructure? ==> pending == old(pending)
      ensures r.Success? && r.value.ProjectedRecord? ==> event.Registry?
    {
      match event
      case Protocol(p) =>
        pending := pending + [p];
        return Success(ProjectedProtocol(p));
      case Router => return Success(ProjectedRouter);
      case Infrastructure => return Success(ProjectedInfrastructure);
      case Registry(e) =>
        if pending == [] {
          return Failure(InvalidMutation);
        }
        var p := pending[0];
        pending := pending[1..];
        return Success(ProjectedRecord(Paired(p, e, observedAt)));
    }

    /** All logs of one window, in order. */
    method ProjectLogs(log: seq<ContractEvent>, observedAt: nat) returns (r: Result<seq<EventRecord>, Error>)
      requires pending == []
      modifies this
      ensures r.Success? <==> Covered(log)
      ensures r.Success? ==>
        && |Registries(log)| <= |Protocols(log)|
        && r.value == Pairs(log, observedAt)
        && pending == Protocols(log)[|Registries(log)|..]
    {
      var records: seq<EventRecord> := [];
      for i := 0 to |log|
        invariant forall j | 0 <= j <= i :: |Registries(log[..j])| <= |Protocols(log[..j])|
        invariant pending == Protocols(log[..i])[|Registries(log[..i])|..]
        invariant records == Pairs(log[..i], observedAt)
      {
        assert log[..i + 1][..i] == log[..i];
        var projected := ProjectEvent(log[i], observedAt);
        if projected.Failure? {
          assert |Registries(log[..i + 1])| > |Protocols(log[..i + 1])|;
          return Failure(projected.error);
        }
        if projected.value.ProjectedRecord? {
          records := records + [projected.value.record];
        }
      }
      assert log[..|log|] == log;
      return Success(records);
    }
  }

  // ----- splitting the log -----

  lemma {:induction false} ListsAcross(a: seq<ContractEvent>, b: seq<ContractEvent>)
    ensures Protocols(a + b) == Protocols(a) + Protocols(b)
    ensures Registries(a + b) == Registries(a) + Registries(b)
    decreases |b|
  {
    if b == [] {
      assert a + b == a;
    } else {
      var k := |b| - 1;
      assert (a + b)[..|a + b| - 1] == a + b[..k];
      ListsAcross(a, b[..k]);
    }
  }

  predicate CoveredUpTo(log: seq<ContractEvent>, i: nat)
    requires i <= |log|
  {
    |Registries(log[..i])| <= |Protocols(log[..i])|
  }

  lemma CoveredAcross(a: seq<ContractEvent>, b: seq<ContractEvent>, i: nat)
    requires Covered(a) && |Registries(a)| == |Protocols(a)| && i <= |a + b|
    ensures CoveredUpTo(a + b, i) <==> i <= |a| || CoveredUpTo(b, i - |a|)
  {
    if i <= |a| {
      assert (a + b)[..i] == a[..i];
    } else {
      assert (a + b)[..i] == a + b[..i - |a|];
      ListsAcross(a, b[..i - |a|]);
    }
  }

  /** Where the queue is empty, the log can be cut: both parts yield together what the whole yields. */
  lemma SplitWhereQueueEmpty(a: seq<ContractEvent>, b: seq<ContractEvent>, observedAt: nat)
    requires Covered(a) && |Registries(a)| == |Protocols(a)|
    ensures Covered(a + b) <==> Covered(b)
    ensures Covered(b) ==>
      && |Registries(b)| <= |Protocols(b)| && |Registries(a + b)| <= |Protocols(a + b)|
      && Pairs(a + b, observedAt) == Pairs(a, observedAt) + Pairs(b, observedAt)
  {
    hide Registries, Protocols;
    ListsAcross(a, b);
    assert a[..|a|] == a && b[..|b|] == b;
    forall i | 0 <= i <= |a + b|
      ensures CoveredUpTo(a + b, i) <==> i <= |a| || CoveredUpTo(b, i - |a|)
    {
      CoveredAcross(a, b, i);
    }
    if Covered(a + b) {
      forall i | 0 <= i <= |b|
        ensures |Registries(b[..i])| <= |Protocols(b[..i])|
      {
        assert CoveredUpTo(a + b, |a| + i);
        assert i == 0 ==> b[..i] == [] && CoveredUpTo(a + b, |a|);
        NothingListed();
      }
    }
    if Covered(b) {
      forall i | 0 <= i <= |a + b|
        ensures |Registries((a + b)[..i])| <= |Protocols((a + b)[..i])|
      {
        assert i > |a| ==> CoveredUpTo(b, i - |a|);
        assert CoveredUpTo(a + b, i);
      }
    }
  }

  lemma NothingListed()
    ensures Registries([]) == [] && Protocols([]) == []
  {
  }
}
