/**
 * The consumer and producer lists of an instance (rabbitmq/exports.go): units keyed by UUID,
 * with add, lookup, remove and an ordered shutdown that stops at the first error.
 */
module RabbitRegistry {
  import opened Wrappers
  import opened Errors
  import opened Broker
  import opened RabbitCore
  import opened RabbitProducer
  import opened RabbitConsumer

  /** ConsumerUnit / ProducerUnit: a UUID and what it names. */
  datatype Unit<H> = Unit(uuid: string, handle: H)

  function Uuids<H>(list: seq<Unit<H>>): (ids: seq<string>)
    ensures |ids| == |list| && forall i :: 0 <= i < |list| ==> ids[i] == list[i].uuid
  {
    if |list| == 0 then [] else Uuids(list[..|list| - 1]) + [list[|list| - 1].uuid]
  }

  /** Appending a unit appends its UUID. */
  lemma UuidsAppend<H>(list: seq<Unit<H>>, unit: Unit<H>)
    ensures Uuids(list + [unit]) == Uuids(list) + [unit.uuid]
  {
    assert (list + [unit])[..|list|] == list;
  }

  predicate Unique<H>(list: seq<Unit<H>>)
  {
    forall i, j :: 0 <= i < j < |list| ==> list[i].uuid != list[j].uuid
  }

  /** The position of the first unit with this UUID. */
  function Find<H>(list: seq<Unit<H>>, uuid: string): (i: Option<nat>)
    ensures i.Some? ==> i.value < |list| && list[i.value].uuid == uuid &&
                        forall j :: 0 <= j < i.value ==> list[j].uuid != uuid
    ensures i.None? <==> uuid !in Uuids(list)
  {
    if |list| == 0 then None
    else if list[0].uuid == uuid then Some(0)
    else match Find(list[1..], uuid)
      case None =>
        assert Uuids(list) == [list[0].uuid] + Uuids(list[1..]);
        None
      case Some(k) => Some(k + 1)
  }

  /** The list without the units carrying this UUID, the others in their order. */
  function Without<H>(list: seq<Unit<H>>, uuid: string): (r: seq<Unit<H>>)
    ensures |r| <= |list|
    ensures forall i :: 0 <= i < |r| ==> r[i].uuid != uuid
  {
    if |list| == 0 then []
    else
      var last := list[|list| - 1];
      Without(list[..|list| - 1], uuid) + (if last.uuid == uuid then [] else [last])
  }

  lemma {:induction false} WithoutAbsent<H>(list: seq<Unit<H>>, uuid: string)
    requires uuid !in Uuids(list)
    ensures Without(list, uuid) == list
  {
    if |list| > 0 {
      var n := |list| - 1;
      assert Uuids(list) == Uuids(list[..n]) + [list[n].uuid];
      WithoutAbsent(list[..n], uuid);
      assert list == list[..n] + [list[n]];
    }
  }

  lemma {:induction false} WithoutAppend<H>(list: seq<Unit<H>>, more: seq<Unit<H>>, uuid: string)
    requires forall j :: 0 <= j < |more| ==> more[j].uuid != uuid
    ensures Without(list + more, uuid) == Without(list, uuid) + more
    decreases |more|
  {
    if |more| > 0 {
      var n := |more| - 1;
      var all := list + more;
      assert all[..|all| - 1] == list + more[..n];
      assert all[|all| - 1] == more[n];
      WithoutAppend(list, more[..n], uuid);
      assert Without(all, uuid) == Without(list + more[..n], uuid) + [more[n]];
      assert more == more[..n] + [more[n]];
    } else {
      assert list + more == list;
    }
  }

  /** Removing units brings no UUID in: one absent from the list stays absent. */
  lemma {:induction false} WithoutKeepsAbsent<H>(list: seq<Unit<H>>, uuid: string, other: string)
    requires other !in Uuids(list)
    ensures other !in Uuids(Without(list, uuid))
  {
    if |list| > 0 {
      var n := |list| - 1;
      assert Uuids(list) == Uuids(list[..n]) + [list[n].uuid];
      WithoutKeepsAbsent(list[..n], uuid, other);
      var last := if list[n].uuid == uuid then [] else [list[n]];
      UuidsAppendAll(Without(list[..n], uuid), last);
    }
  }

  /** The UUIDs of a concatenation. */
  lemma UuidsAppendAll<H>(list: seq<Unit<H>>, more: seq<Unit<H>>)
    ensures Uuids(list + more) == Uuids(list) + Uuids(more)
  {
    var l, r := Uuids(list + more), Uuids(list) + Uuids(more);
    assert |l| == |r|;
    forall i | 0 <= i < |l| ensures l[i] == r[i] {
      if i < |list| {
        assert (list + more)[i] == list[i];
      } else {
        assert (list + more)[i] == more[i - |list|];
      }
    }
  }

  /** The first unit carrying the UUID is the one Find reports. */
  lemma FindFirst<H>(list: seq<Unit<H>>, uuid: string, i: nat)
    requires i < |list| && list[i].uuid == uuid
    requires forall j :: 0 <= j < i ==> list[j].uuid != uuid
    ensures uuid in Uuids(list) && Find(list, uuid) == Some(i)
  {
    assert Uuids(list)[i] == uuid;
  }

  /** A UUID no unit carries is not found. */
  lemma FindNone<H>(list: seq<Unit<H>>, uuid: string)
    requires forall j :: 0 <= j < |list| ==> list[j].uuid != uuid
    ensures uuid !in Uuids(list) && Find(list, uuid) == None
  {
  }

  /** A unit appended under a new UUID is the one Find reports for it. */
  lemma FindAppended<H>(list: seq<Unit<H>>, unit: Unit<H>)
    requires unit.uuid !in Uuids(list)
    ensures Find(list + [unit], unit.uuid) == Some(|list|)
  {
    var all := list + [unit];
    forall j | 0 <= j < |list| ensures all[j].uuid != unit.uuid {
      assert all[j] == list[j] && Uuids(list)[j] == list[j].uuid;
    }
    FindFirst(all, unit.uuid, |list|);
  }

  /**
   * Remove's loop: walks the list and splices out the unit with this UUID. With unique UUIDs
   * this is exactly Without: the unit is gone, the others keep their order, and a UUID that is
   * not there changes nothing.
   */
  method Splice<H>(list: seq<Unit<H>>, uuid: string) returns (r: seq<Unit<H>>)
    requires Unique(list)
    ensures r == Without(list, uuid)
    ensures Find(list, uuid).None? ==> r == list
    ensures Find(list, uuid).Some? ==> r == list[..Find(list, uuid).value] + list[Find(list, uuid).value + 1..]
  {
    r := list;
    ghost var found: Option<nat> := None;
    for i := 0 to |list|
      invariant found.None? ==> r == list && forall j :: 0 <= j < i ==> list[j].uuid != uuid
      invariant found.Some? ==> found.value < i && list[found.value].uuid == uuid &&
                                (forall j :: 0 <= j < found.value ==> list[j].uuid != uuid) &&
                                r == list[..found.value] + list[found.value + 1..]
    {
      if list[i].uuid == uuid {
        r := r[..i] + r[i + 1..];
        found := Some(i);
      }
    }
    match found
    case None =>
      FindNone(list, uuid);
      WithoutAbsent(list, uuid);
    case Some(k) =>
      FindFirst(list, uuid, k);
      SpliceOne(list, uuid, k);
  }

  /** With unique UUIDs, dropping the one unit with this UUID is cutting it out at its position. */
  lemma SpliceOne<H>(list: seq<Unit<H>>, uuid: string, k: nat)
    requires Unique(list) && k < |list| && list[k].uuid == uuid
    ensures Without(list, uuid) == list[..k] + list[k + 1..]
  {
    var before, upto, rest := list[..k], list[..k + 1], list[k + 1..];
    assert Without(upto, uuid) == before by {
      assert uuid !in Uuids(before) by {
        forall j | 0 <= j < |before| ensures before[j].uuid != uuid {
          assert before[j] == list[j];
        }
      }
      WithoutAbsent(before, uuid);
      assert upto[..k] == before && upto[k] == list[k];
    }
    assert forall j :: 0 <= j < |rest| ==> rest[j].uuid != uuid by {
      forall j | 0 <= j < |rest| ensures rest[j].uuid != uuid {
        assert rest[j] == list[k + 1 + j];
      }
    }
    assert list == upto + rest;
    WithoutAppend(upto, rest, uuid);
  }

  /** Cutting one unit out keeps the UUIDs unique and every other unit where it was, shifted past the cut. */
  lemma CutKeepsUnique<H>(list: seq<Unit<H>>, k: nat)
    requires Unique(list) && k < |list|
    ensures Unique(list[..k] + list[k + 1..])
    ensures forall i :: 0 <= i < |list| - 1 ==> (list[..k] + list[k + 1..])[i] == if i < k then list[i] else list[i + 1]
  {
    var r := list[..k] + list[k + 1..];
    forall i | 0 <= i < |r| ensures r[i] == if i < k then list[i] else list[i + 1] { }
    forall i, j | 0 <= i < j < |r| ensures r[i].uuid != r[j].uuid {
      var i' := if i < k then i else i + 1;
      var j' := if j < k then j else j + 1;
      assert r[i] == list[i'] && r[j] == list[j'];
    }
  }

  /** What one unit's shutdown acts on: a channel and a tag, or nothing when its options are missing. */
  datatype Target = Target(ch: ChannelId, tag: string) | MissingOptions

  function UnitCalls(t: Target, r: ChannelShutdownReplies): seq<Call>
  {
    if t.Target? then ShutdownChannelCalls(t.ch, t.tag, r) else []
  }

  function UnitClosed(t: Target, r: ChannelShutdownReplies): set<ChannelId>
  {
    if t.Target? && Tolerated(r.cancel) then {t.ch} else {}
  }

  function UnitVerdict(t: Target, r: ChannelShutdownReplies): Option<Error>
  {
    if t.Target? then ShutdownChannelVerdict(r) else Some(Failure(OptionsMissingMsg))
  }

  /** The calls a list shutdown makes from unit i on: each unit in list order, up to and including the first that fails. */
  function StageCalls(ts: seq<Target>, rs: seq<ChannelShutdownReplies>, i: nat): seq<Call>
    requires |ts| == |rs| && i <= |ts|
    decreases |ts| - i
  {
    if i == |ts| then []
    else UnitCalls(ts[i], rs[i]) + if UnitVerdict(ts[i], rs[i]).Some? then [] else StageCalls(ts, rs, i + 1)
  }

  /** The channels a list shutdown leaves closed from unit i on, over the same units as StageCalls. */
  function StageClosed(ts: seq<Target>, rs: seq<ChannelShutdownReplies>, i: nat): set<ChannelId>
    requires |ts| == |rs| && i <= |ts|
    decreases |ts| - i
  {
    if i == |ts| then {}
    else UnitClosed(ts[i], rs[i]) + if UnitVerdict(ts[i], rs[i]).Some? then {} else StageClosed(ts, rs, i + 1)
  }

  /** A list shutdown's result from unit i on: the first failing unit's error, nil when none fails. */
  function StageVerdict(ts: seq<Target>, rs: seq<ChannelShutdownReplies>, i: nat): Option<Error>
    requires |ts| == |rs| && i <= |ts|
    decreases |ts| - i
  {
    if i == |ts| then None
    else if UnitVerdict(ts[i], rs[i]).Some? then UnitVerdict(ts[i], rs[i])
    else StageVerdict(ts, rs, i + 1)
  }

  /** The broker's log and closed channels after a list shutdown, with the error it returns. */
  datatype StageOutcome = StageOutcome(log: seq<Call>, closed: set<ChannelId>, err: Option<Error>)

  /** A list shutdown run from unit i on, over the broker's current log and closed set. */
  function StageRun(ts: seq<Target>, rs: seq<ChannelShutdownReplies>, i: nat, log: seq<Call>, closed: set<ChannelId>): (o: StageOutcome)
    requires |ts| == |rs| && i <= |ts|
    ensures closed <= o.closed
    decreases |ts| - i
  {
    if i == |ts| then StageOutcome(log, closed, None)
    else
      var log', closed' := log + UnitCalls(ts[i], rs[i]), closed + UnitClosed(ts[i], rs[i]);
      if UnitVerdict(ts[i], rs[i]).Some? then StageOutcome(log', closed', UnitVerdict(ts[i], rs[i]))
      else StageRun(ts, rs, i + 1, log', closed')
  }

  /** Running the stage appends StageCalls to the log, adds StageClosed to the closed channels and returns StageVerdict. */
  lemma {:induction false} StageRunAppends(ts: seq<Target>, rs: seq<ChannelShutdownReplies>, i: nat, log: seq<Call>, closed: set<ChannelId>)
    requires |ts| == |rs| && i <= |ts|
    ensures StageRun(ts, rs, i, log, closed) ==
            StageOutcome(log + StageCalls(ts, rs, i), closed + StageClosed(ts, rs, i), StageVerdict(ts, rs, i))
    decreases |ts| - i
  {
    if i == |ts| {
      assert log + [] == log && closed + {} == closed;
    } else if UnitVerdict(ts[i], rs[i]).Some? {
      var calls, shut := UnitCalls(ts[i], rs[i]), UnitClosed(ts[i], rs[i]);
      assert StageCalls(ts, rs, i) == calls + [] == calls;
      assert StageClosed(ts, rs, i) == shut + {} == shut;
    } else {
      var log', closed' := log + UnitCalls(ts[i], rs[i]), closed + UnitClosed(ts[i], rs[i]);
      StageRunAppends(ts, rs, i + 1, log', closed');
      assert log' + StageCalls(ts, rs, i + 1) == log + StageCalls(ts, rs, i);
      assert closed' + StageClosed(ts, rs, i + 1) == closed + StageClosed(ts, rs, i);
    }
  }

  /** The stage reports nil exactly when every unit shut down, and otherwise the error of the first unit that failed. */
  lemma {:induction false} StageVerdictIsFirstError(ts: seq<Target>, rs: seq<ChannelShutdownReplies>, i: nat)
    requires |ts| == |rs| && i <= |ts|
    ensures StageVerdict(ts, rs, i).None? <==> forall j :: i <= j < |ts| ==> UnitVerdict(ts[j], rs[j]).None?
    ensures StageVerdict(ts, rs, i).Some? ==>
      exists k :: i <= k < |ts| && StageVerdict(ts, rs, i) == UnitVerdict(ts[k], rs[k]) &&
                  forall j :: i <= j < k ==> UnitVerdict(ts[j], rs[j]).None?
    decreases |ts| - i
  {
    if i < |ts| && UnitVerdict(ts[i], rs[i]).None? {
      StageVerdictIsFirstError(ts, rs, i + 1);
    }
  }

  /** What a consumer's shutdown acts on: its channel and its consumer tag. */
  function ConsumerTarget(c: Consumer): Target
    reads c
  {
    Target(c.channel, c.Options().tag)
  }

  /** The consumers a list holds. */
  function Handles(list: seq<Unit<Consumer>>): set<Consumer>
  {
    set i | 0 <= i < |list| :: list[i].handle
  }

  function ConsumerTargets(list: seq<Unit<Consumer>>): (ts: seq<Target>)
    reads Handles(list)
    ensures |ts| == |list|
    ensures forall i :: 0 <= i < |list| ==> ts[i] == ConsumerTarget(list[i].handle)
  {
    if |list| == 0 then [] else ConsumerTargets(list[..|list| - 1]) + [ConsumerTarget(list[|list| - 1].handle)]
  }

  /** One consumer's part of the list shutdown, stated over its target t. */
  method ShutdownConsumerUnit(broker: Broker, c: Consumer, ghost t: Target, r: ChannelShutdownReplies) returns (e: Option<Error>)
    requires c.rmq.broker == broker && t == Target(c.channel, c.Options().tag) && !c.doneClosed
    modifies c`doneClosed, broker
    ensures broker.log == old(broker.log) + UnitCalls(t, r)
    ensures broker.closed == old(broker.closed) + UnitClosed(t, r)
    ensures e == UnitVerdict(t, r)
  {
    e := c.Shutdown(r);
  }

  /** ConsumerList.Shutdown's loop: the consumers in list order, stopping at the first error. */
  method ShutdownConsumers(broker: Broker, units: seq<Unit<Consumer>>, ghost ts: seq<Target>, replies: seq<ChannelShutdownReplies>)
    returns (err: Option<Error>)
    requires |ts| == |units| == |replies|
    requires forall j, k :: 0 <= j < k < |units| ==> units[j].handle != units[k].handle
    requires forall j :: 0 <= j < |units| ==> units[j].handle.rmq.broker == broker && !units[j].handle.doneClosed
    requires forall j :: 0 <= j < |units| ==> ts[j] == Target(units[j].handle.channel, units[j].handle.Options().tag)
    modifies broker, set j | 0 <= j < |units| :: units[j].handle
    ensures StageOutcome(broker.log, broker.closed, err) == StageRun(ts, replies, 0, old(broker.log), old(broker.closed))
  {
    var i := 0;
    while i < |units|
      invariant 0 <= i <= |units|
      invariant StageRun(ts, replies, i, broker.log, broker.closed) == StageRun(ts, replies, 0, old(broker.log), old(broker.closed))
      invariant forall j :: i <= j < |units| ==> !units[j].handle.doneClosed
      invariant forall j :: i <= j < |units| ==> ts[j] == Target(units[j].handle.channel, units[j].handle.Options().tag)
    {
      var c := units[i].handle;
      var e := ShutdownConsumerUnit(broker, c, ts[i], replies[i]);
      if e.Some? {
        return e;
      }
      i := i + 1;
    }
    return None;
  }

  /** What a producer's shutdown acts on: its channel and publishing tag, or nothing without publishing options. */
  function ProducerTarget(p: Producer): Target
  {
    if p.session.publishingOptions.Some? then Target(p.channel, p.session.publishingOptions.value.tag) else MissingOptions
  }

  function ProducerTargets(list: seq<Unit<Producer>>): (ts: seq<Target>)
    ensures |ts| == |list|
    ensures forall i :: 0 <= i < |list| ==> ts[i] == ProducerTarget(list[i].handle)
  {
    if |list| == 0 then [] else ProducerTargets(list[..|list| - 1]) + [ProducerTarget(list[|list| - 1].handle)]
  }

  /** One producer's part of the list shutdown, stated over its target. */
  method ShutdownProducerUnit(broker: Broker, p: Producer, r: ChannelShutdownReplies) returns (e: Option<Error>)
    modifies broker
    ensures broker.log == old(broker.log) + UnitCalls(ProducerTarget(p), r)
    ensures broker.closed == old(broker.closed) + UnitClosed(ProducerTarget(p), r)
    ensures e == UnitVerdict(ProducerTarget(p), r)
  {
    e := RabbitProducer.Shutdown(broker, p, r);
  }

  /** The producer the list hands out for a UUID: the first with that UUID, only while its channel is open. */
  function LiveProducer(list: seq<Unit<Producer>>, closed: set<ChannelId>, uuid: string): (p: Option<Producer>)
    ensures p.Some? <==> Find(list, uuid).Some? && list[Find(list, uuid).value].handle.channel !in closed
    ensures p.Some? ==> p.value == list[Find(list, uuid).value].handle
  {
    match Find(list, uuid)
    case None => None
    case Some(i) => if list[i].handle.channel in closed then None else Some(list[i].handle)
  }

  /** How ProducerList.Get as written ends: the producer, not found, or blocked for ever. */
  datatype GetOutcome = Found(producer: Producer) | NotFound | Hung

  /**
   * ProducerList.Get as written: it holds the read lock while it looks, and on a producer whose
   * channel is closed it calls Remove, which waits for the write lock that read lock keeps out.
   * It hangs exactly where the corrected Get removes the producer.
   */
  function GetAsWritten(list: seq<Unit<Producer>>, closed: set<ChannelId>, uuid: string): (g: GetOutcome)
    ensures g.Hung? <==> Find(list, uuid).Some? && LiveProducer(list, closed, uuid).None?
    ensures g.NotFound? <==> Find(list, uuid).None?
    ensures g.Found? ==> Some(g.producer) == LiveProducer(list, closed, uuid)
  {
    match Find(list, uuid)
    case None => NotFound
    case Some(i) => if list[i].handle.channel in closed then Hung else Found(list[i].handle)
  }

  /** ConsumerList. */
  class ConsumerList {
    var list: seq<Unit<Consumer>>

    /** UUIDs are unique (random v4) and each unit's UUID is its consumer's. */
    predicate Valid()
      reads this
    {
      Unique(list) && forall i :: 0 <= i < |list| ==> list[i].uuid == list[i].handle.uuid
    }

    constructor ()
      ensures list == [] && Valid()
    {
      list := [];
    }

    /** Add: appends the unit. */
    method Add(unit: Unit<Consumer>)
      requires Valid() && unit.uuid !in Uuids(list) && unit.uuid == unit.handle.uuid
      modifies this
      ensures list == old(list) + [unit] && Valid()
    {
      list := list + [unit];
    }

    /** Get: the first consumer with this UUID, or (nil, false); the list is not touched. */
    method Get(uuid: string) returns (c: Consumer?, ok: bool)
      ensures ok <==> uuid in Uuids(list)
      ensures ok ==> c == list[Find(list, uuid).value].handle
      ensures !ok ==> c == null
    {
      for i := 0 to |list|
        invariant forall j :: 0 <= j < i ==> list[j].uuid != uuid
      {
        if list[i].uuid == uuid {
          FindFirst(list, uuid, i);
          return list[i].handle, true;
        }
      }
      FindNone(list, uuid);
      return null, false;
    }

    /** Remove: drops the unit with this UUID; the others keep their order. */
    method Remove(uuid: string)
      requires Valid()
      modifies this
      ensures list == Without(old(list), uuid) && Valid()
      ensures uuid !in old(Uuids(list)) ==> list == old(list)
    {
      var before := list;
      list := Splice(list, uuid);
      if Find(before, uuid).Some? {
        CutKeepsUnique(before, Find(before, uuid).value);
        forall i | 0 <= i < |list| ensures list[i].uuid == list[i].handle.uuid {
          assert list[i] == before[i] || list[i] == before[i + 1];
        }
      }
    }

    /**
     * Shutdown: shuts the consumers down in list order and returns the first error, leaving the
     * list as it was; when every consumer shut down, the list is emptied.
     */
    method Shutdown(broker: Broker, replies: seq<ChannelShutdownReplies>) returns (err: Option<Error>)
      requires Valid() && |replies| == |list|
      requires forall i :: 0 <= i < |list| ==> list[i].handle.rmq.broker == broker && !list[i].handle.doneClosed
      modifies this, broker, Handles(list)
      ensures StageOutcome(broker.log, broker.closed, err) ==
              StageRun(old(ConsumerTargets(list)), replies, 0, old(broker.log), old(broker.closed))
      ensures err.None? ==> list == []
      ensures err.Some? ==> list == old(list)
      ensures Valid()
    {
      ghost var ts := ConsumerTargets(list);
      forall j, k | 0 <= j < k < |list| ensures list[j].handle != list[k].handle {
        assert list[j].uuid != list[k].uuid;
      }
      err := ShutdownConsumers(broker, list, ts, replies);
      if err.None? {
        list := [];
      }
    }
  }

  /** ProducerList. */
  class ProducerList {
    var list: seq<Unit<Producer>>

    /**
     * UUIDs are unique (random v4), each unit's UUID is its producer's, and every producer
     * carries publishing options (NewProducer always sets them).
     */
    predicate Valid()
      reads this
    {
      Unique(list) &&
      forall i :: 0 <= i < |list| ==> list[i].uuid == list[i].handle.uuid && list[i].handle.session.publishingOptions.Some?
    }

    constructor ()
      ensures list == [] && Valid()
    {
      list := [];
    }

    /** Add: appends the unit. */
    method Add(unit: Unit<Producer>)
      requires Valid() && unit.uuid !in Uuids(list) && unit.uuid == unit.handle.uuid
      requires unit.handle.session.publishingOptions.Some?
      modifies this
      ensures list == old(list) + [unit] && Valid()
    {
      list := list + [unit];
    }

    /**
     * Get: the producer with this UUID while its channel is open. One whose channel is closed
     * is removed from the list and reported as not found.
     */
    method Get(uuid: string, broker: Broker) returns (p: Option<Producer>)
      requires Valid()
      modifies this
      ensures p == LiveProducer(old(list), broker.closed, uuid)
      ensures Find(old(list), uuid).Some? && p.None? ==> list == Without(old(list), uuid)
      ensures !(Find(old(list), uuid).Some? && p.None?) ==> list == old(list)
      ensures Valid()
    {
      for i := 0 to |list|
        invariant forall j :: 0 <= j < i ==> list[j].uuid != uuid
      {
        if list[i].uuid == uuid {
          FindFirst(list, uuid, i);
          if list[i].handle.channel !in broker.closed {
            return Some(list[i].handle);
          }
          Remove(uuid);
          return None;
        }
      }
      FindNone(list, uuid);
      return None;
    }

    /** Remove: drops the unit with this UUID; the others keep their order. */
    method Remove(uuid: string)
      requires Valid()
      modifies this
      ensures list == Without(old(list), uuid) && Valid()
      ensures uuid !in old(Uuids(list)) ==> list == old(list)
    {
      var before := list;
      list := Splice(list, uuid);
      if Find(before, uuid).Some? {
        CutKeepsUnique(before, Find(before, uuid).value);
        forall i | 0 <= i < |list| ensures list[i].uuid == list[i].handle.uuid {
          assert list[i] == before[i] || list[i] == before[i + 1];
        }
      }
    }

    /**
     * Shutdown: shuts the producers down in list order and returns the first error, leaving the
     * list as it was; when every producer shut down, the list is emptied.
     */
    method Shutdown(broker: Broker, replies: seq<ChannelShutdownReplies>) returns (err: Option<Error>)
      requires Valid() && |replies| == |list|
      modifies this, broker
      ensures StageOutcome(broker.log, broker.closed, err) ==
              StageRun(ProducerTargets(old(list)), replies, 0, old(broker.log), old(broker.closed))
      ensures err.None? ==> list == []
      ensures err.Some? ==> list == old(list)
      ensures Valid()
    {
      var ts := ProducerTargets(list);
      var i := 0;
      while i < |list|
        invariant 0 <= i <= |list| && list == old(list)
        invariant StageRun(ts, replies, i, broker.log, broker.closed) == StageRun(ts, replies, 0, old(broker.log), old(broker.closed))
      {
        var e := ShutdownProducerUnit(broker, list[i].handle, replies[i]);
        if e.Some? {
          return e;
        }
        i := i + 1;
      }
      list := [];
      return None;
    }
  }
}
